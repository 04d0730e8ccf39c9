/** The drop zone of the file import screen: it checks a dropped or chosen file
    against the accepted extensions and the size limit before handing it on to
    the contact-file parser. */
module FileDropZone {
  import opened Common
  import opened Strings
  import ContactImport

  /** The `accept` and `maxSize` props when the caller gives none. */
  const DefaultAccept := ".csv,.vcf,.vcard"
  const Megabyte := 1024 * 1024
  const DefaultMaxSize := 5 * Megabyte

  /** What the zone reads of a browser `File`. */
  datatype FileInfo = FileInfo(name: string, size: nat)

  // ---------------------------------------------------------------- extensions

  /** `accept.split(',').map(e => e.trim().toLowerCase())`. */
  function AcceptedExtensions(accept: string): seq<string>
  {
    var parts := Split(accept, ',');
    seq(|parts|, i requires 0 <= i < |parts| => Lower(Trim(parts[i])))
  }

  /** Every accepted extension is compared without surrounding white space
      and without capitals, and no entry spans a comma. */
  lemma AcceptedExtensionsNormal(accept: string)
    ensures forall e :: e in AcceptedExtensions(accept) ==>
              Tight(e) && ',' !in e && forall k :: 0 <= k < |e| ==> !('A' <= e[k] <= 'Z')
  {
    var parts := Split(accept, ',');
    forall i | 0 <= i < |parts|
      ensures var e := AcceptedExtensions(accept)[i];
              Tight(e) && ',' !in e && forall k :: 0 <= k < |e| ==> !('A' <= e[k] <= 'Z')
    {
      var t := Trim(parts[i]);
      TrimSpec(parts[i]);
      var e := Lower(t);
      assert e == AcceptedExtensions(accept)[i];
      assert forall k :: 0 <= k < |e| ==> e[k] == LowerChar(t[k]);
      assert ',' !in t by {
        var a, b :| 0 <= a <= b <= |parts[i]| && t == parts[i][a..b];
        assert forall k :: 0 <= k < |t| ==> t[k] == parts[i][a + k];
      }
    }
  }

  /** A text of three comma-free parts joined by commas splits into them. */
  lemma SplitThree(a: string, b: string, c: string)
    requires ',' !in a && ',' !in b && ',' !in c
    ensures Split(a + [','] + b + [','] + c, ',') == [a, b, c]
  {
    assert a + [','] + b + [','] + c == a + [','] + (b + [','] + c);
    SplitCons(a, ',', b + [','] + c);
    SplitCons(b, ',', c);
  }

  /** The default `accept` prop splits into the three contact-file extensions. */
  lemma DefaultAcceptParts()
    ensures Split(DefaultAccept, ',') == [".csv", ".vcf", ".vcard"]
  {
    assert DefaultAccept == ".csv" + [','] + ".vcf" + [','] + ".vcard";
    SplitThree(".csv", ".vcf", ".vcard");
  }

  /** Entries written without spaces or capitals are kept as written. */
  lemma AcceptedExtensionsOfNormal(accept: string)
    requires forall p :: p in Split(accept, ',') ==>
               Tight(p) && forall k :: 0 <= k < |p| ==> !('A' <= p[k] <= 'Z')
    ensures AcceptedExtensions(accept) == Split(accept, ',')
  {
    var parts := Split(accept, ',');
    forall i | 0 <= i < |parts| ensures AcceptedExtensions(accept)[i] == parts[i] {
      assert parts[i] in parts;
      TrimTight(parts[i]);
      LowerOfLowerCase(parts[i]);
    }
  }

  lemma DefaultPartsNormal()
    ensures forall p :: p in [".csv", ".vcf", ".vcard"] ==>
              Tight(p) && forall k :: 0 <= k < |p| ==> !('A' <= p[k] <= 'Z')
  {
    assert Tight(".csv") && Tight(".vcf") && Tight(".vcard");
  }

  /** The default `accept` prop names exactly the three contact-file extensions. */
  lemma DefaultAcceptedExtensions()
    ensures AcceptedExtensions(DefaultAccept) == [".csv", ".vcf", ".vcard"]
  {
    DefaultAcceptParts();
    DefaultPartsNormal();
    AcceptedExtensionsOfNormal(DefaultAccept);
  }

  /** As written: `.${file.name.split('.').pop()?.toLowerCase()}`. A name with
      no dot at all yields the whole name, so "csv" gets the extension ".csv". */
  function ExtensionAsWritten(name: string): string
  {
    "." + Lower(LastPart(name, '.'))
  }

  /** Corrected: a file name without a dot has no extension. */
  function Extension(name: string): (e: Option<string>)
    ensures e.None? <==> '.' !in name
  {
    if '.' in name then Some(ExtensionAsWritten(name)) else None
  }

  /** The extension is a dot followed by the lower-cased text after the last
      dot of the name. */
  lemma ExtensionSpec(name: string)
    ensures Extension(name).Some? ==>
              exists k :: 0 <= k < |name| && name[k] == '.' && '.' !in name[k + 1..]
                          && Extension(name).value == "." + Lower(name[k + 1..])
  {
    LastPartSpec(name, '.');
  }

  /** A name that ends, in any letter case, in a dot and a dot-free text has
      that ending as its extension. */
  lemma ExtensionOfEnding(name: string, t: string)
    requires '.' !in t && EndsWith(Lower(name), "." + t)
    ensures Extension(name) == Some("." + t)
  {
    var k := |name| - |t| - 1;
    assert Lower(name)[k] == '.';
    assert name[k] == '.';
    var tail := name[k + 1..];
    assert Lower(tail) == t by {
      assert forall j :: 0 <= j < |tail| ==> Lower(tail)[j] == Lower(name)[k + 1 + j];
      assert forall j :: 0 <= j < |t| ==> t[j] == ("." + t)[j + 1] == Lower(name)[k + 1 + j];
    }
    assert '.' !in tail by {
      forall j | 0 <= j < |tail| ensures tail[j] != '.' {
        assert LowerChar(tail[j]) == t[j];
      }
    }
    LastPartSpec(name, '.');
    var i :| 0 <= i < |name| && name[i] == '.' && LastPart(name, '.') == name[i + 1..];
    assert i == k;
  }

  /** The lower-cased name ends in its extension. */
  lemma EndsWithExtension(name: string)
    requires Extension(name).Some?
    ensures EndsWith(Lower(name), Extension(name).value)
  {
    LastPartSpec(name, '.');
    var k :| 0 <= k < |name| && name[k] == '.' && LastPart(name, '.') == name[k + 1..];
    var e := Extension(name).value;
    assert e == "." + Lower(name[k + 1..]);
    assert name[k..] == "." + name[k + 1..];
    LowerAppend(".", name[k + 1..]);
    assert Lower(name[k..]) == e;
    LowerSuffix(name, k);
  }

  // ---------------------------------------------------------------- validation

  function TypeMessage(accept: string): string
  {
    "Invalid file type. Please use " + accept
  }

  /** `Math.round(maxSize / 1024 / 1024)`: the limit in whole megabytes,
      halves rounded up. */
  function RoundedMegabytes(maxSize: int): (mb: int)
    ensures (2 * mb - 1) * Megabyte <= 2 * maxSize < (2 * mb + 1) * Megabyte
  {
    var mb := (maxSize + Megabyte / 2) / Megabyte;
    var rest := (maxSize + Megabyte / 2) % Megabyte;
    assert maxSize + Megabyte / 2 == mb * Megabyte + rest;
    mb
  }

  /** `${n}` for any integer. */
  function IntString(n: int): string
  {
    if n < 0 then "-" + NatString(-n) else NatString(n)
  }

  function SizeMessage(maxSize: int): string
  {
    "File too large. Maximum size is " + IntString(RoundedMegabytes(maxSize)) + "MB"
  }

  /** The file's extension is one of the accepted ones. */
  predicate TypeAccepted(accept: string, name: string)
  {
    Extension(name).Some? && Extension(name).value in AcceptedExtensions(accept)
  }

  /** The message validateFile leaves, or None when it accepts the file;
      the type is checked before the size, and the limit itself is allowed. */
  function Check(accept: string, maxSize: int, file: FileInfo): (r: Option<string>)
    ensures r.None? <==> TypeAccepted(accept, file.name) && file.size <= maxSize
    ensures !TypeAccepted(accept, file.name) ==> r == Some(TypeMessage(accept))
    ensures TypeAccepted(accept, file.name) && file.size > maxSize ==> r == Some(SizeMessage(maxSize))
  {
    var ext := Extension(file.name);
    if ext.None? || ext.value !in AcceptedExtensions(accept) then Some(TypeMessage(accept))
    else if file.size > maxSize then Some(SizeMessage(maxSize))
    else None
  }

  /** validateFile as written, with the extension of a dotless name taken to
      be the whole name. */
  function CheckAsWritten(accept: string, maxSize: int, file: FileInfo): (r: Option<string>)
    ensures r.None? <==> ExtensionAsWritten(file.name) in AcceptedExtensions(accept)
                         && file.size <= maxSize
    ensures ExtensionAsWritten(file.name) !in AcceptedExtensions(accept) ==> r == Some(TypeMessage(accept))
    ensures ExtensionAsWritten(file.name) in AcceptedExtensions(accept) && file.size > maxSize
            ==> r == Some(SizeMessage(maxSize))
  {
    if ExtensionAsWritten(file.name) !in AcceptedExtensions(accept) then Some(TypeMessage(accept))
    else if file.size > maxSize then Some(SizeMessage(maxSize))
    else None
  }

  /** The two checks differ only on names without a dot. */
  lemma CheckAgreesOnDottedNames(accept: string, maxSize: int, file: FileInfo)
    requires '.' in file.name
    ensures Check(accept, maxSize, file) == CheckAsWritten(accept, maxSize, file)
  {
  }

  /** The limit is inclusive: a file of exactly `maxSize` bytes passes and one
      byte more is refused for its size. */
  lemma SizeLimitInclusive(accept: string, maxSize: nat, name: string)
    requires TypeAccepted(accept, name)
    ensures Check(accept, maxSize, FileInfo(name, maxSize)).None?
    ensures Check(accept, maxSize, FileInfo(name, maxSize + 1)) == Some(SizeMessage(maxSize))
  {
  }

  /** With the default limit the size message reads "5MB". */
  lemma DefaultSizeMessage()
    ensures SizeMessage(DefaultMaxSize) == "File too large. Maximum size is 5MB"
  {
    assert RoundedMegabytes(DefaultMaxSize) == 5;
    assert NatString(5) == "5";
  }

  /** A name ending in one of the three contact-file extensions is routed. */
  lemma RoutedByEnding(name: string, e: string)
    requires e == ".csv" || e == ".vcf" || e == ".vcard"
    requires EndsWith(Lower(name), e)
    ensures ContactImport.KindOf(name) != ContactImport.UnsupportedFile
  {
  }

  /** The three contact-file extensions, as the default `accept` prop lists them. */
  predicate ListsContactFiles(accept: string)
  {
    AcceptedExtensions(accept) == [".csv", ".vcf", ".vcard"]
  }

  /** When `accept` lists the contact-file extensions, an accepted type is one
      the parser routes to the CSV or the vCard reader. */
  lemma AcceptedIsRouted(accept: string, name: string)
    requires ListsContactFiles(accept)
    requires TypeAccepted(accept, name)
    ensures ContactImport.KindOf(name) != ContactImport.UnsupportedFile
  {
    var e := Extension(name).value;
    EndsWithExtension(name);
    RoutedByEnding(name, e);
  }

  /** When `accept` lists the contact-file extensions, every name the parser
      routes has an accepted type. */
  lemma RoutedIsAccepted(accept: string, name: string)
    requires ListsContactFiles(accept)
    requires ContactImport.KindOf(name) != ContactImport.UnsupportedFile
    ensures TypeAccepted(accept, name)
  {
    var lower := Lower(name);
    if EndsWith(lower, ".csv") {
      assert ".csv" == "." + "csv";
      ExtensionOfEnding(name, "csv");
    } else if EndsWith(lower, ".vcf") {
      assert ".vcf" == "." + "vcf";
      ExtensionOfEnding(name, "vcf");
    } else {
      assert ".vcard" == "." + "vcard";
      ExtensionOfEnding(name, "vcard");
    }
  }

  /** With the default `accept`, a file that passes the drop zone is never
      refused by the parser as an unsupported type, and a file the parser
      would read is refused by the drop zone only for its size. */
  lemma ValidatedIffRouted(maxSize: int, file: FileInfo)
    ensures Check(DefaultAccept, maxSize, file).None? ==>
              ContactImport.KindOf(file.name) != ContactImport.UnsupportedFile
    ensures ContactImport.KindOf(file.name) != ContactImport.UnsupportedFile && file.size <= maxSize ==>
              Check(DefaultAccept, maxSize, file).None?
  {
    DefaultAcceptedExtensions();
    if TypeAccepted(DefaultAccept, file.name) {
      AcceptedIsRouted(DefaultAccept, file.name);
    }
    if ContactImport.KindOf(file.name) != ContactImport.UnsupportedFile {
      RoutedIsAccepted(DefaultAccept, file.name);
    }
  }

  lemma DotlessExtensionAsWritten()
    ensures ExtensionAsWritten("csv") == ".csv"
  {
    LastPartSpec("csv", '.');
    LowerOfLowerCase("csv");
  }

  lemma DotlessNameUnsupported()
    ensures ContactImport.KindOf("csv") == ContactImport.UnsupportedFile
  {
    LowerOfLowerCase("csv");
  }

  /** As written, a file named just "csv" passes the drop zone but the parser
      refuses it as an unsupported type; the corrected check refuses it for
      its type. */
  lemma DotlessNamePassesAsWritten()
    ensures CheckAsWritten(DefaultAccept, DefaultMaxSize, FileInfo("csv", 0)).None?
    ensures ContactImport.KindOf("csv") == ContactImport.UnsupportedFile
    ensures Check(DefaultAccept, DefaultMaxSize, FileInfo("csv", 0)) == Some(TypeMessage(DefaultAccept))
  {
    DefaultAcceptedExtensions();
    DotlessExtensionAsWritten();
    DotlessNameUnsupported();
  }

  // ---------------------------------------------------------------- component

  /** The component's state: the drag highlight, the error on display, and the
      files handed to `onFileSelect`, oldest first. */
  class DropZone {
    const accept: string
    const maxSize: int
    var isDragging: bool
    var error: Option<string>
    var selected: seq<FileInfo>

    constructor(accept: string, maxSize: int)
      ensures this.accept == accept && this.maxSize == maxSize
      ensures !isDragging && error.None? && selected == []
    {
      this.accept := accept;
      this.maxSize := maxSize;
      isDragging := false;
      error := None;
      selected := [];
    }

    /** validateFile: clears the previous error, then shows the message of the
        first check that fails. The component runs the check as written, so a
        dotless name such as "csv" passes as ".csv". */
    method ValidateFile(file: FileInfo) returns (ok: bool)
      modifies this
      ensures ok <==> CheckAsWritten(accept, maxSize, file).None?
      ensures error == CheckAsWritten(accept, maxSize, file)
      ensures isDragging == old(isDragging) && selected == old(selected)
    {
      error := None;
      var validExtensions := AcceptedExtensions(accept);
      var fileExtension := ExtensionAsWritten(file.name);
      if fileExtension !in validExtensions {
        error := Some(TypeMessage(accept));
        return false;
      }
      if file.size > maxSize {
        error := Some(SizeMessage(maxSize));
        return false;
      }
      return true;
    }

    /** handleFile: hands the file on only when it is valid. */
    method HandleFile(file: FileInfo)
      modifies this
      ensures error == CheckAsWritten(accept, maxSize, file)
      ensures selected == old(selected) + if error.None? then [file] else []
      ensures isDragging == old(isDragging)
    {
      var ok := ValidateFile(file);
      if ok {
        selected := selected + [file];
      }
    }

    method HandleDragEnter()
      modifies this
      ensures isDragging
      ensures error == old(error) && selected == old(selected)
    {
      isDragging := true;
    }

    method HandleDragLeave()
      modifies this
      ensures !isDragging
      ensures error == old(error) && selected == old(selected)
    {
      isDragging := false;
    }

    /** handleDrop: ends the highlight and handles the first dropped file
        only; dropping nothing changes nothing else. */
    method HandleDrop(files: seq<FileInfo>)
      modifies this
      ensures !isDragging
      ensures |files| == 0 ==> error == old(error) && selected == old(selected)
      ensures |files| > 0 ==> error == CheckAsWritten(accept, maxSize, files[0])
      ensures |files| > 0 ==> selected == old(selected) + if error.None? then [files[0]] else []
    {
      isDragging := false;
      if |files| > 0 {
        HandleFile(files[0]);
      }
    }

    /** handleInputChange: handles the first chosen file, if any. */
    method HandleInputChange(files: Option<seq<FileInfo>>)
      modifies this
      ensures isDragging == old(isDragging)
      ensures (files.None? || |files.value| == 0) ==> error == old(error) && selected == old(selected)
      ensures files.Some? && |files.value| > 0 ==>
                error == CheckAsWritten(accept, maxSize, files.value[0])
                && selected == old(selected) + if error.None? then [files.value[0]] else []
    {
      if files.Some? && |files.value| > 0 {
        HandleFile(files.value[0]);
      }
    }
  }
}
