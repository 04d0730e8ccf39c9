/** The contact-import service (services/contactImportService.ts): phone
    normalisation, the CSV column heuristic and row loop, vCard splitting and
    per-card extraction, the file-type dispatcher, and the validator.

    The CSV tokeniser and the vCard line parser are libraries outside this
    model; their outputs are inputs here: a CSV file arrives as parsed rows (or
    the parser's error message), and the vCard library is a total function from
    one card's text to its parsed properties (or a parse failure). */
module ContactImport {
  import opened Common
  import opened Strings

  /** A contact extracted from a file or the picker, before it is saved. */
  datatype ParsedContact = ParsedContact(name: string, email: Option<string>, phone: Option<string>)

  // ================================================================ phone numbers

  /** The shape of every phone number the normaliser returns: digits only,
      at least one, optionally after a single leading `+`. */
  predicate IsNormalPhone(p: string)
  {
    if StartsWith(p, "+") then |p| > 1 && AllDigits(p[1..]) else |p| > 0 && AllDigits(p)
  }

  /** `normalizePhone`: absent for an absent or empty input or one without
      digits; otherwise the input's digits, behind a `+` exactly when the input
      starts with one. */
  function NormalizePhone(phone: Option<string>): (r: Option<string>)
    ensures r.None? <==> phone.None? || Digits(phone.value) == ""
    ensures r.Some? ==> IsNormalPhone(r.value)
    ensures r.Some? ==> Digits(r.value) == Digits(phone.value)
    ensures r.Some? ==> (StartsWith(r.value, "+") <==> StartsWith(phone.value, "+"))
  {
    if phone.None? || phone.value == "" then None
    else
      var hasPlus := StartsWith(phone.value, "+");
      var digits := Digits(phone.value);
      if digits == "" then None
      else
        DigitsOfDigits(digits);
        if hasPlus then
          assert ("+" + digits)[1..] == digits;
          DigitsAppend("+", digits);
          Some("+" + digits)
        else
          Some(digits)
  }

  /** A normal phone number is left as it is. */
  lemma NormalPhoneIsFixed(p: string)
    requires IsNormalPhone(p)
    ensures NormalizePhone(Some(p)) == Some(p)
  {
    if StartsWith(p, "+") {
      assert p == "+" + p[1..];
      DigitsAppend("+", p[1..]);
      DigitsOfDigits(p[1..]);
      assert Digits("+") == "";
      assert Digits(p) == p[1..];
    } else {
      DigitsOfDigits(p);
    }
  }

  /** Normalising twice is normalising once. */
  lemma NormalizePhoneIdempotent(phone: Option<string>)
    ensures NormalizePhone(NormalizePhone(phone)) == NormalizePhone(phone)
  {
    var r := NormalizePhone(phone);
    if r.Some? {
      NormalPhoneIsFixed(r.value);
    }
  }

  // ================================================================ the column heuristic

  const NameAliases: seq<string> := ["name", "full name", "fullname", "display name"]
  const EmailAliases: seq<string> := ["email", "e-mail", "email address"]
  const PhoneAliases: seq<string> := ["phone", "telephone", "mobile", "cell", "phone number"]

  /** A header matches an alias when its lower-case form contains the alias. */
  predicate HeaderMatches(header: string, alias: string)
  {
    Contains(Lower(header), Lower(alias))
  }

  /** `rowKeys.findIndex(k => k.includes(alias))`: the first header matching. */
  function FirstMatchIndex(keys: seq<string>, alias: string): (r: Option<nat>)
    ensures r.None? <==> forall j :: 0 <= j < |keys| ==> !HeaderMatches(keys[j], alias)
    ensures r.Some? ==> r.value < |keys| && HeaderMatches(keys[r.value], alias)
                        && forall j :: 0 <= j < r.value ==> !HeaderMatches(keys[j], alias)
  {
    if |keys| == 0 then None
    else if HeaderMatches(keys[0], alias) then Some(0)
    else
      match FirstMatchIndex(keys[1..], alias)
      case None => None
      case Some(j) => Some(j + 1)
  }

  /** What `findColumn(row, aliases)` returns for a row whose keys are `keys`:
      aliases are tried in order, and the first alias that any header matches
      picks the first such header, in its original case; no match is `None`. */
  function ColumnFor(keys: seq<string>, aliases: seq<string>): (r: Option<string>)
    ensures r.None? <==> forall i :: 0 <= i < |aliases| ==> FirstMatchIndex(keys, aliases[i]).None?
    ensures r.Some? ==>
      exists i :: 0 <= i < |aliases| && FirstMatchIndex(keys, aliases[i]).Some?
        && r.value == keys[FirstMatchIndex(keys, aliases[i]).value]
        && forall i' :: 0 <= i' < i ==> FirstMatchIndex(keys, aliases[i']).None?
  {
    if |aliases| == 0 then None
    else
      match FirstMatchIndex(keys, aliases[0])
      case Some(j) => Some(keys[j])
      case None =>
        var r := ColumnFor(keys, aliases[1..]);
        assert forall i :: 1 <= i < |aliases| ==> aliases[1..][i - 1] == aliases[i];
        r
  }

  /** `findColumn`: the search loop with its early return. */
  method FindColumn(keys: seq<string>, aliases: seq<string>) returns (r: Option<string>)
    ensures r == ColumnFor(keys, aliases)
  {
    var rowKeys := seq(|keys|, k requires 0 <= k < |keys| => Lower(keys[k]));
    for i := 0 to |aliases|
      invariant ColumnFor(keys, aliases) == ColumnFor(keys, aliases[i..])
    {
      var alias := Lower(aliases[i]);
      var j := 0;
      while j < |rowKeys|
        invariant 0 <= j <= |rowKeys|
        invariant forall l :: 0 <= l < j ==> !HeaderMatches(keys[l], aliases[i])
      {
        if Contains(rowKeys[j], alias) {
          FirstMatchIndexUnique(keys, aliases[i], j);
          assert aliases[i..][0] == aliases[i];
          return Some(keys[j]);
        }
        j := j + 1;
      }
      assert aliases[i..][0] == aliases[i];
      assert aliases[i..][1..] == aliases[i + 1..];
    }
    return None;
  }

  /** The first matching header is the one with no match before it. */
  lemma FirstMatchIndexUnique(keys: seq<string>, alias: string, j: nat)
    requires j < |keys| && HeaderMatches(keys[j], alias)
    requires forall l :: 0 <= l < j ==> !HeaderMatches(keys[l], alias)
    ensures FirstMatchIndex(keys, alias) == Some(j)
  {
  }

  /** Removing an alias that no header matches does not change the column. */
  lemma {:induction false} DropUnmatchedAlias(keys: seq<string>, aliases: seq<string>, j: nat)
    requires j < |aliases|
    requires FirstMatchIndex(keys, aliases[j]).None?
    ensures ColumnFor(keys, aliases) == ColumnFor(keys, aliases[..j] + aliases[j + 1..])
  {
    var rest := aliases[..j] + aliases[j + 1..];
    if j == 0 {
      assert rest == aliases[1..];
    } else {
      assert rest[0] == aliases[0];
      assert rest[1..] == aliases[1..][..j - 1] + aliases[1..][j..];
      DropUnmatchedAlias(keys, aliases[1..], j - 1);
    }
  }

  /** Whatever header contains `b` also contains any `a` that `b` contains. */
  lemma SubsumedUnmatched(keys: seq<string>, a: string, b: string)
    requires Contains(Lower(b), Lower(a))
    requires FirstMatchIndex(keys, a).None?
    ensures FirstMatchIndex(keys, b).None?
  {
    forall k | 0 <= k < |keys| ensures !HeaderMatches(keys[k], b) {
      if HeaderMatches(keys[k], b) {
        ContainsTrans(Lower(keys[k]), Lower(b), Lower(a));
      }
    }
  }

  /** An alias that contains an earlier alias can never decide the column:
      any header it matches was already matched by the earlier one. */
  lemma {:induction false} DropSubsumedAlias(keys: seq<string>, aliases: seq<string>, i: nat, j: nat)
    requires i < j < |aliases|
    requires Contains(Lower(aliases[j]), Lower(aliases[i]))
    ensures ColumnFor(keys, aliases) == ColumnFor(keys, aliases[..j] + aliases[j + 1..])
  {
    var rest := aliases[..j] + aliases[j + 1..];
    assert rest[0] == aliases[0];
    assert rest[1..] == aliases[1..][..j - 1] + aliases[1..][j..];
    if FirstMatchIndex(keys, aliases[0]).None? {
      if i == 0 {
        SubsumedUnmatched(keys, aliases[0], aliases[j]);
        DropUnmatchedAlias(keys, aliases, j);
      } else {
        DropSubsumedAlias(keys, aliases[1..], i - 1, j - 1);
      }
    }
  }

  /** A lower-case alias `a` occurring in a lower-case alias `b`. */
  lemma AliasInAlias(b: string, a: string, at: nat)
    requires forall k :: 0 <= k < |b| ==> !('A' <= b[k] <= 'Z')
    requires forall k :: 0 <= k < |a| ==> !('A' <= a[k] <= 'Z')
    requires at + |a| <= |b| && b[at..at + |a|] == a
    ensures Contains(Lower(b), Lower(a))
  {
    LowerOfLowerCase(a);
    LowerOfLowerCase(b);
    assert OccursAt(b, a, at);
  }

  /** When every alias contains the first one, only the first can decide. */
  lemma {:induction false} FirstAliasDecides(keys: seq<string>, aliases: seq<string>)
    requires |aliases| > 0
    requires forall k :: 0 < k < |aliases| ==> Contains(Lower(aliases[k]), Lower(aliases[0]))
    ensures ColumnFor(keys, aliases) == ColumnFor(keys, aliases[..1])
  {
    if FirstMatchIndex(keys, aliases[0]).None? {
      forall k | 0 < k < |aliases| ensures FirstMatchIndex(keys, aliases[k]).None? {
        SubsumedUnmatched(keys, aliases[0], aliases[k]);
      }
    }
  }

  /** Of the name aliases only "name" ever decides: "full name", "fullname"
      and "display name" all contain it. */
  lemma NameAliasesReduce(keys: seq<string>)
    ensures ColumnFor(keys, NameAliases) == ColumnFor(keys, ["name"])
  {
    AliasInAlias("full name", "name", 5);
    AliasInAlias("fullname", "name", 4);
    AliasInAlias("display name", "name", 8);
    FirstAliasDecides(keys, NameAliases);
    assert NameAliases[..1] == ["name"];
  }

  /** "email address" contains "email", so it never decides. */
  lemma EmailAliasesReduce(keys: seq<string>)
    ensures ColumnFor(keys, EmailAliases) == ColumnFor(keys, ["email", "e-mail"])
  {
    AliasInAlias("email address", "email", 0);
    DropSubsumedAlias(keys, EmailAliases, 0, 2);
    assert EmailAliases[..2] + EmailAliases[3..] == ["email", "e-mail"];
  }

  /** "telephone" and "phone number" contain "phone", so they never decide. */
  lemma PhoneAliasesReduce(keys: seq<string>)
    ensures ColumnFor(keys, PhoneAliases) == ColumnFor(keys, ["phone", "mobile", "cell"])
  {
    PhoneNumberNeverDecides(keys);
    TelephoneNeverDecides(keys);
  }

  lemma TelephoneNeverDecides(keys: seq<string>)
    ensures ColumnFor(keys, ["phone", "telephone", "mobile", "cell"]) == ColumnFor(keys, ["phone", "mobile", "cell"])
  {
    var a1 := ["phone", "telephone", "mobile", "cell"];
    AliasInAlias("telephone", "phone", 4);
    DropSubsumedAlias(keys, a1, 0, 1);
    assert a1[..1] + a1[2..] == ["phone", "mobile", "cell"];
  }

  lemma PhoneNumberNeverDecides(keys: seq<string>)
    ensures ColumnFor(keys, PhoneAliases) == ColumnFor(keys, ["phone", "telephone", "mobile", "cell"])
  {
    AliasInAlias("phone number", "phone", 0);
    DropSubsumedAlias(keys, PhoneAliases, 0, 4);
    assert PhoneAliases[..4] + PhoneAliases[5..] == ["phone", "telephone", "mobile", "cell"];
  }

  // ================================================================ CSV

  /** One data row as the CSV parser hands it over: its keys in `Object.keys`
      order and the header-to-cell map. */
  datatype Row = Row(keys: seq<string>, cells: map<string, string>)

  /** The CSV parser's outcome: the data rows, or its error message. */
  datatype CsvParse = Parsed(rows: seq<Row>) | ParserError(message: string)

  /** Explicit column names that replace the alias heuristic. */
  datatype CsvOptions = CsvOptions(nameColumn: Option<string>, emailColumn: Option<string>,
                                   phoneColumn: Option<string>)

  const NoOptions := CsvOptions(None, None, None)

  /** `options?.xColumn || findColumn(row, aliases)`. */
  function ChosenColumn(explicit: Option<string>, keys: seq<string>, aliases: seq<string>): Option<string>
  {
    if Truthy(explicit) then explicit else ColumnFor(keys, aliases)
  }

  /** `col ? row[col]?.trim() : undefined`. */
  function Cell(row: Row, col: Option<string>): Option<string>
  {
    if Truthy(col) && col.value in row.cells then Some(Trim(row.cells[col.value])) else None
  }

  /** The contact one row yields, if any: a name and an email or phone. */
  function RowContact(row: Row, options: CsvOptions): Option<ParsedContact>
  {
    var name := Cell(row, ChosenColumn(options.nameColumn, row.keys, NameAliases));
    var email := Cell(row, ChosenColumn(options.emailColumn, row.keys, EmailAliases));
    var phone := NormalizePhone(Cell(row, ChosenColumn(options.phoneColumn, row.keys, PhoneAliases)));
    if !Truthy(name) || (!Truthy(email) && !Truthy(phone)) then None
    else Some(ParsedContact(name.value, email, phone))
  }

  /** The contacts of a parsed CSV file, in row order. */
  function CsvContacts(rows: seq<Row>, options: CsvOptions): seq<ParsedContact>
  {
    FilterMap(rows, (row: Row) => RowContact(row, options))
  }

  /** `parseCSV` on the parser's outcome: a parser error rejects the whole file
      with "CSV parsing error: " and the parser's message; otherwise each row
      is examined in turn and the complete ones are kept. */
  method ParseCsv(input: CsvParse, options: CsvOptions) returns (r: Result<seq<ParsedContact>, Thrown>)
    ensures input.ParserError? ==> r == Err(PlainError("CSV parsing error: " + input.message))
    ensures input.Parsed? ==> r == Ok(CsvContacts(input.rows, options))
  {
    if input.ParserError? {
      return Err(PlainError("CSV parsing error: " + input.message));
    }
    var rows := input.rows;
    var contacts: seq<ParsedContact> := [];
    for i := 0 to |rows|
      invariant contacts == CsvContacts(rows[..i], options)
    {
      var row := rows[i];
      FilterMapSnoc(rows, i, (row: Row) => RowContact(row, options));
      var nameCol := options.nameColumn;
      if !Truthy(nameCol) { nameCol := FindColumn(row.keys, NameAliases); }
      var emailCol := options.emailColumn;
      if !Truthy(emailCol) { emailCol := FindColumn(row.keys, EmailAliases); }
      var phoneCol := options.phoneColumn;
      if !Truthy(phoneCol) { phoneCol := FindColumn(row.keys, PhoneAliases); }

      var name := Cell(row, nameCol);
      var email := Cell(row, emailCol);
      var phone := NormalizePhone(Cell(row, phoneCol));

      if !Truthy(name) { continue; }
      if !Truthy(email) && !Truthy(phone) { continue; }
      contacts := contacts + [ParsedContact(name.value, email, phone)];
    }
    assert rows[..|rows|] == rows;
    return Ok(contacts);
  }

  /** Every contact the CSV path emits has a non-empty, already trimmed name
      and an email or a phone; a phone is always in normal form. */
  lemma CsvContactsComplete(rows: seq<Row>, options: CsvOptions, c: ParsedContact)
    requires c in CsvContacts(rows, options)
    ensures c.name != "" && Trim(c.name) == c.name
    ensures Truthy(c.email) || Truthy(c.phone)
    ensures c.phone.Some? ==> IsNormalPhone(c.phone.value)
  {
    FilterMapMember(rows, (row: Row) => RowContact(row, options), c);
    var row :| row in rows && RowContact(row, options) == Some(c);
    var col := ChosenColumn(options.nameColumn, row.keys, NameAliases);
    TrimTrim(row.cells[col.value]);
  }

  /** The output keeps row order: output k comes from row ix[k], the rows it
      comes from are increasing, and every row with a contact contributes. */
  lemma CsvKeepsRowOrder(rows: seq<Row>, options: CsvOptions)
    ensures var out, ix := CsvContacts(rows, options), AcceptedIndices(rows, (row: Row) => RowContact(row, options));
            |out| == |ix| && StrictlyIncreasing(ix)
            && (forall k :: 0 <= k < |out| ==> RowContact(rows[ix[k]], options) == Some(out[k]))
            && (forall j :: 0 <= j < |rows| && RowContact(rows[j], options).Some? ==> j in ix)
  {
    FilterMapOrder(rows, (row: Row) => RowContact(row, options));
  }

  /** Each column is chosen on its own: a truthy explicit column wins over
      the heuristic, and without one the heuristic decides. The row's cells
      are then read from the column chosen. */
  lemma ExplicitColumnsOverride(row: Row, options: CsvOptions)
    ensures Truthy(options.nameColumn) ==> ChosenColumn(options.nameColumn, row.keys, NameAliases) == options.nameColumn
    ensures !Truthy(options.nameColumn) ==> ChosenColumn(options.nameColumn, row.keys, NameAliases) == ColumnFor(row.keys, NameAliases)
    ensures Truthy(options.emailColumn) ==> ChosenColumn(options.emailColumn, row.keys, EmailAliases) == options.emailColumn
    ensures !Truthy(options.emailColumn) ==> ChosenColumn(options.emailColumn, row.keys, EmailAliases) == ColumnFor(row.keys, EmailAliases)
    ensures Truthy(options.phoneColumn) ==> ChosenColumn(options.phoneColumn, row.keys, PhoneAliases) == options.phoneColumn
    ensures !Truthy(options.phoneColumn) ==> ChosenColumn(options.phoneColumn, row.keys, PhoneAliases) == ColumnFor(row.keys, PhoneAliases)
    ensures Truthy(options.nameColumn) && RowContact(row, options).Some? ==>
              options.nameColumn.value in row.cells
              && RowContact(row, options).value.name == Trim(row.cells[options.nameColumn.value])
    ensures Truthy(options.emailColumn) && RowContact(row, options).Some? ==>
              RowContact(row, options).value.email == Cell(row, options.emailColumn)
    ensures Truthy(options.phoneColumn) && RowContact(row, options).Some? ==>
              RowContact(row, options).value.phone == NormalizePhone(Cell(row, options.phoneColumn))
  {
  }

  /** With all three columns given explicitly, the headers' order and names
      no longer matter: only the cells of those columns are read. */
  lemma ExplicitColumnsIgnoreHeaders(row: Row, keys: seq<string>, options: CsvOptions)
    requires Truthy(options.nameColumn) && Truthy(options.emailColumn) && Truthy(options.phoneColumn)
    ensures RowContact(row, options) == RowContact(row.(keys := keys), options)
  {
  }

  const ExampleKeys: seq<string> := ["Full Name", "Email Address", "Mobile"]

  /** The heuristic on the headers "Full Name", "Email Address", "Mobile". */
  lemma ExampleColumns()
    ensures ColumnFor(ExampleKeys, NameAliases) == Some("Full Name")
    ensures ColumnFor(ExampleKeys, EmailAliases) == Some("Email Address")
    ensures ColumnFor(ExampleKeys, PhoneAliases) == Some("Mobile")
  {
    ExampleNameColumn();
    ExampleEmailColumn();
    ExamplePhoneColumn();
  }

  lemma ExampleNameColumn()
    ensures ColumnFor(ExampleKeys, NameAliases) == Some("Full Name")
  {
    var keys := ExampleKeys;
    LowerOfLowerCase("name");
    var l0 := Lower(keys[0]);
    assert l0 == "full name";
    assert OccursAt(l0, "name", 5);
    assert FirstMatchIndex(keys, NameAliases[0]) == Some(0);
  }

  lemma ExampleEmailColumn()
    ensures ColumnFor(ExampleKeys, EmailAliases) == Some("Email Address")
  {
    var keys := ExampleKeys;
    LowerOfLowerCase("email");
    var l0, l1 := Lower(keys[0]), Lower(keys[1]);
    assert l0 == "full name" && l1 == "email address";
    AbsentCharExcludes(l0, "email", 'i');
    assert OccursAt(l1, "email", 0);
    FirstMatchIndexUnique(keys, EmailAliases[0], 1);
  }

  lemma ExamplePhoneColumn()
    ensures ColumnFor(ExampleKeys, PhoneAliases) == Some("Mobile")
  {
    var keys := ExampleKeys;
    ExampleHasNoP();
    LowerOfLowerCase("phone");
    LowerOfLowerCase("telephone");
    NoHeaderHasChar(keys, "phone", 'p');
    NoHeaderHasChar(keys, "telephone", 'p');
    assert ColumnFor(keys, PhoneAliases) == ColumnFor(keys, PhoneAliases[1..]);
    assert PhoneAliases[1..][1..] == PhoneAliases[2..];
    assert ColumnFor(keys, PhoneAliases[1..]) == ColumnFor(keys, PhoneAliases[2..]);
    ExampleMobileHeader();
  }

  lemma ExampleHasNoP()
    ensures forall k :: 0 <= k < |ExampleKeys| ==> 'p' !in Lower(ExampleKeys[k])
  {
    var keys := ExampleKeys;
    assert Lower(keys[0]) == "full name";
    assert Lower(keys[1]) == "email address";
    assert Lower(keys[2]) == "mobile";
  }

  lemma ExampleMobileHeader()
    ensures FirstMatchIndex(ExampleKeys, "mobile") == Some(2)
  {
    var keys := ExampleKeys;
    LowerOfLowerCase("mobile");
    var l0, l1, l2 := Lower(keys[0]), Lower(keys[1]), Lower(keys[2]);
    assert l0 == "full name" && l1 == "email address" && l2 == "mobile";
    AbsentCharExcludes(l0, "mobile", 'b');
    AbsentCharExcludes(l1, "mobile", 'b');
    assert OccursAt(l2, "mobile", 0);
    FirstMatchIndexUnique(keys, "mobile", 2);
  }

  /** An alias with a character no header has matches no header. */
  lemma NoHeaderHasChar(keys: seq<string>, alias: string, c: char)
    requires c in Lower(alias)
    requires forall k :: 0 <= k < |keys| ==> c !in Lower(keys[k])
    ensures FirstMatchIndex(keys, alias).None?
  {
    forall k | 0 <= k < |keys| ensures !HeaderMatches(keys[k], alias) {
      AbsentCharExcludes(Lower(keys[k]), Lower(alias), c);
    }
  }

  /** Dropping a dash between digit groups. */
  lemma DashDigits(a: string, b: string)
    requires AllDigits(a)
    ensures Digits(a + "-" + b) == a + Digits(b)
  {
    DigitsOfDigits(a);
    DigitsAppend(a, "-" + b);
    DigitsSkipNonDigit('-', b);
    assert a + "-" + b == a + ("-" + b);
  }

  lemma ExamplePhoneDigits()
    ensures Digits("555-000-1111") == "5550001111"
  {
    ExamplePhoneGroups();
    assert "555" + "-" + ("000" + "-" + "1111") == "555-000-1111";
  }

  lemma ExamplePhoneGroups()
    ensures Digits("555" + "-" + ("000" + "-" + "1111")) == "5550001111"
  {
    DigitsOfDigits("1111");
    DashDigits("000", "1111");
    DashDigits("555", "000" + "-" + "1111");
  }

  lemma ExamplePhone()
    ensures NormalizePhone(Some("555-000-1111")) == Some("5550001111")
  {
    ExamplePhoneDigits();
    var p := "555-000-1111";
    assert p[..1] != "+";
  }

  /** A text lacking a character of `t` cannot contain `t`. */
  lemma AbsentCharExcludes(s: string, t: string, c: char)
    requires c in t && c !in s
    ensures !Contains(s, t)
  {
    var k :| 0 <= k < |t| && t[k] == c;
    forall i | 0 <= i <= |s| - |t| ensures !OccursAt(s, t, i) {
      assert s[i..i + |t|][k] == s[i + k];
    }
  }

  // ================================================================ vCard

  /** The card boundary `BEGIN:VCARD`, matched case-insensitively. */
  const Marker: string := "begin:vcard"

  predicate MarkerAt(s: string, q: int)
  {
    0 <= q && q + |Marker| <= |s| && Lower(s[q..q + |Marker|]) == Marker
  }

  /** Each character of a boundary is, in lower case, the marker's. */
  lemma MarkerChar(s: string, q: int, d: int)
    requires MarkerAt(s, q) && 0 <= d < |Marker|
    ensures LowerChar(s[q + d]) == Marker[d]
  {
    assert Lower(s[q..q + |Marker|])[d] == LowerChar(s[q + d]);
  }

  /** Two boundaries never overlap: "begin:vcard" has no 'b' after its first letter. */
  lemma MarkersApart(s: string, q: int, q': int)
    requires MarkerAt(s, q) && MarkerAt(s, q') && q < q'
    ensures q' >= q + |Marker|
  {
    if q' < q + |Marker| {
      MarkerChar(s, q, q' - q);
      MarkerChar(s, q', 0);
      assert false;
    }
  }

  /** The first boundary at or after `from`. */
  function NextMarker(s: string, from: nat): (r: Option<nat>)
    ensures r.Some? ==> from <= r.value < |s| && MarkerAt(s, r.value)
                        && forall q :: from <= q < r.value ==> !MarkerAt(s, q)
    ensures r.None? ==> forall q :: from <= q < |s| ==> !MarkerAt(s, q)
    decreases |s| - from
  {
    if from >= |s| then None
    else if MarkerAt(s, from) then Some(from)
    else NextMarker(s, from + 1)
  }

  /** `content.split(/(?=BEGIN:VCARD)/i)`: the text cut just before every
      boundary other than one at the very start. */
  function SplitCards(s: string): seq<string>
    decreases |s|
  {
    match NextMarker(s, 1)
    case None => [s]
    case Some(q) => [s[..q]] + SplitCards(s[q..])
  }

  function Concat(parts: seq<string>): string
  {
    if |parts| == 0 then "" else parts[0] + Concat(parts[1..])
  }

  lemma MarkerInSuffix(s: string, q: nat, p: int)
    requires q <= |s|
    ensures MarkerAt(s[q..], p) <==> (p >= 0 && MarkerAt(s, q + p))
  {
    if 0 <= p && q + p + |Marker| <= |s| {
      assert s[q..][p..p + |Marker|] == s[q + p..q + p + |Marker|];
    }
  }

  lemma MarkerInPrefix(s: string, q: nat, p: int)
    requires q <= |s|
    ensures MarkerAt(s[..q], p) ==> MarkerAt(s, p)
  {
    if MarkerAt(s[..q], p) {
      assert s[..q][p..p + |Marker|] == s[p..p + |Marker|];
    }
  }

  /** The split loses nothing: the parts concatenate to the text. */
  lemma {:induction false} SplitCardsConcat(s: string)
    ensures Concat(SplitCards(s)) == s
    decreases |s|
  {
    match NextMarker(s, 1)
    case None =>
    case Some(q) =>
      var rest := s[q..];
      SplitCardsConcat(rest);
      var parts := [s[..q]] + SplitCards(rest);
      assert parts[0] == s[..q] && parts[1..] == SplitCards(rest);
      assert s == s[..q] + rest;
  }

  /** A text that begins with a boundary splits into parts of which the first
      still begins with it. */
  lemma FirstPartKeepsMarker(s: string)
    requires MarkerAt(s, 0)
    ensures MarkerAt(SplitCards(s)[0], 0)
  {
    match NextMarker(s, 1)
    case None =>
    case Some(q) =>
      MarkersApart(s, 0, q);
      assert s[..q][0..|Marker|] == s[0..|Marker|];
  }

  /** Every part after the first begins with a boundary. */
  lemma {:induction false} SplitCardsHeads(s: string)
    ensures forall k :: 1 <= k < |SplitCards(s)| ==> MarkerAt(SplitCards(s)[k], 0)
    decreases |s|
  {
    var next := NextMarker(s, 1);
    if next.Some? {
      var q := next.value;
      var rest := s[q..];
      var tail := SplitCards(rest);
      SplitCardsHeads(rest);
      assert rest[0..|Marker|] == s[q..q + |Marker|];
      FirstPartKeepsMarker(rest);
      assert SplitCards(s) == [s[..q]] + tail;
      forall k | 1 <= k < |SplitCards(s)| ensures MarkerAt(SplitCards(s)[k], 0) {
        assert SplitCards(s)[k] == tail[k - 1];
      }
    }
  }

  /** No part holds a boundary anywhere but at its start. */
  lemma {:induction false} SplitCardsNoInterior(s: string)
    ensures forall k, p :: 0 <= k < |SplitCards(s)| && 0 < p ==> !MarkerAt(SplitCards(s)[k], p)
    decreases |s|
  {
    match NextMarker(s, 1)
    case None =>
    case Some(q) =>
      var rest := s[q..];
      SplitCardsNoInterior(rest);
      var parts := SplitCards(s);
      assert parts == [s[..q]] + SplitCards(rest);
      forall p | 0 < p ensures !MarkerAt(s[..q], p) {
        MarkerInPrefix(s, q, p);
      }
      forall k, p | 0 <= k < |parts| && 0 < p ensures !MarkerAt(parts[k], p) {
        if k > 0 { assert parts[k] == SplitCards(rest)[k - 1]; }
      }
  }

  /** The card texts worth parsing: the split parts that are not blank. */
  function CardTexts(content: string): seq<string>
  {
    FilterMap(SplitCards(content), (part: string) => if IsBlank(part) then None else Some(part))
  }

  /** What the vCard library makes of one card: the values of its FN, N, EMAIL
      and TEL properties in card order (empty when the property is absent), or
      a failure to parse. */
  datatype CardParse = Malformed | Card(fn: seq<string>, n: seq<string>, email: seq<string>, tel: seq<string>)

  /** `[given, family].filter(Boolean).join(' ').trim()` for an N value
      `family;given;middle;prefix;suffix`. */
  function NameFromN(nData: string): string
  {
    var parts := Split(nData, ';');
    var family := parts[0];
    var given := if |parts| > 1 then parts[1] else "";
    Trim(if given == "" then family else if family == "" then given else given + " " + family)
  }

  /** The card's display name: the first FN value, else one built from N, else "". */
  function CardName(fn: seq<string>, n: seq<string>): string
  {
    if |fn| > 0 then fn[0] else if |n| > 0 then NameFromN(n[0]) else ""
  }

  /** The contact one card yields, if any. */
  function CardContact(card: CardParse): Option<ParsedContact>
  {
    match card
    case Malformed => None
    case Card(fn, n, email, tel) =>
      var name := CardName(fn, n);
      var em := if |email| > 0 then Some(email[0]) else None;
      var phone := if |tel| > 0 then NormalizePhone(Some(tel[0])) else None;
      if name != "" && (Truthy(em) || Truthy(phone)) then Some(ParsedContact(name, em, phone)) else None
  }

  /** The contacts of a list of card texts, each card on its own. */
  function CardsContacts(cards: seq<string>, parseCard: string -> CardParse): seq<ParsedContact>
  {
    FilterMap(cards, (card: string) => CardContact(parseCard(card)))
  }

  function VCardContacts(content: string, parseCard: string -> CardParse): seq<ParsedContact>
  {
    CardsContacts(CardTexts(content), parseCard)
  }

  /** FileReader's outcome: the file's text, or a read failure. */
  datatype ReadOutcome = Read(text: string) | ReadFailed

  /** `parseVCard`: a read failure rejects with "Failed to read file";
      otherwise each card text is parsed on its own, a card that fails to parse
      is skipped, and the complete cards are kept in order. */
  method ParseVCard(file: ReadOutcome, parseCard: string -> CardParse)
    returns (r: Result<seq<ParsedContact>, Thrown>)
    ensures file.ReadFailed? ==> r == Err(PlainError("Failed to read file"))
    ensures file.Read? ==> r == Ok(VCardContacts(file.text, parseCard))
  {
    if file.ReadFailed? {
      return Err(PlainError("Failed to read file"));
    }
    var cards := CardTexts(file.text);
    var contacts: seq<ParsedContact> := [];
    for i := 0 to |cards|
      invariant contacts == CardsContacts(cards[..i], parseCard)
    {
      FilterMapSnoc(cards, i, (card: string) => CardContact(parseCard(card)));
      var card := parseCard(cards[i]);
      if card.Malformed? { continue; }

      var name := "";
      if |card.fn| > 0 {
        name := card.fn[0];
      } else if |card.n| > 0 {
        name := NameFromN(card.n[0]);
      }
      var email: Option<string> := None;
      if |card.email| > 0 {
        email := Some(card.email[0]);
      }
      var phone: Option<string> := None;
      if |card.tel| > 0 {
        phone := NormalizePhone(Some(card.tel[0]));
      }
      if name != "" && (Truthy(email) || Truthy(phone)) {
        contacts := contacts + [ParsedContact(name, email, phone)];
      }
    }
    assert cards[..|cards|] == cards;
    return Ok(contacts);
  }

  /** A card that fails to parse is skipped alone: the cards around it yield
      exactly what they yield without it. */
  lemma MalformedCardSkippedAlone(before: seq<string>, bad: string, after: seq<string>,
                                  parseCard: string -> CardParse)
    requires parseCard(bad) == Malformed
    ensures CardsContacts(before + [bad] + after, parseCard)
              == CardsContacts(before, parseCard) + CardsContacts(after, parseCard)
  {
    var f := (card: string) => CardContact(parseCard(card));
    FilterMapAppend(before + [bad], after, f);
    FilterMapAppend(before, [bad], f);
    assert FilterMap([bad], f) == [] by {
      assert [bad][..0] == [];
    }
  }

  /** Only the first FN, N, EMAIL and TEL values matter. */
  lemma FirstValuesOnly(fn: seq<string>, n: seq<string>, email: seq<string>, tel: seq<string>)
    ensures CardContact(Card(fn, n, email, tel))
              == CardContact(Card(First(fn), First(n), First(email), First(tel)))
  {
  }

  function First(xs: seq<string>): (r: seq<string>)
    ensures |r| <= 1 && (|xs| > 0 <==> |r| == 1) && (|r| == 1 ==> r[0] == xs[0])
  {
    if |xs| == 0 then [] else xs[..1]
  }

  /** An N value `family;given;...` gives the name "given family". */
  lemma NameFromNOrder(family: string, given: string, rest: string)
    requires ';' !in family && ';' !in given && (rest == "" || rest[0] == ';')
    requires family != "" && given != "" && Tight(family) && Tight(given)
    ensures NameFromN(family + ";" + given + rest) == given + " " + family
  {
    var s := family + ";" + given + rest;
    assert s[..|family|] == family;
    FirstIndexAt(s, ';', |family|);
    var t := s[|family| + 1..];
    assert t == given + rest;
    if rest != "" {
      assert t[..|given|] == given;
      FirstIndexAt(t, ';', |given|);
    } else {
      assert t == given;
    }
    assert Split(s, ';')[1] == given;
    TrimTight(given + " " + family);
  }

  /** Every contact the vCard path emits has a name and an email or phone,
      and a phone in normal form. */
  lemma VCardContactsComplete(cards: seq<string>, parseCard: string -> CardParse, c: ParsedContact)
    requires c in CardsContacts(cards, parseCard)
    ensures c.name != "" && (Truthy(c.email) || Truthy(c.phone))
    ensures c.phone.Some? ==> IsNormalPhone(c.phone.value)
  {
    FilterMapMember(cards, (card: string) => CardContact(parseCard(card)), c);
  }

  // ================================================================ dispatch

  datatype FileKind = CsvFile | VCardFile | UnsupportedFile

  /** The parser a file name selects, from its lower-case form. */
  function KindOf(name: string): (k: FileKind)
    ensures k == CsvFile <==> EndsWith(Lower(name), ".csv")
    ensures k == VCardFile <==> !EndsWith(Lower(name), ".csv")
                                && (EndsWith(Lower(name), ".vcf") || EndsWith(Lower(name), ".vcard"))
  {
    var fileName := Lower(name);
    if EndsWith(fileName, ".csv") then CsvFile
    else if EndsWith(fileName, ".vcf") || EndsWith(fileName, ".vcard") then VCardFile
    else UnsupportedFile
  }

  const UnsupportedMessage := "Unsupported file type. Please use CSV or vCard (.vcf) files."

  /** An uploaded file: its name, what the CSV parser makes of it, and what a
      text read of it gives. */
  datatype ContactFile = ContactFile(name: string, csv: CsvParse, text: ReadOutcome)

  function CsvOutcome(input: CsvParse, options: CsvOptions): Result<seq<ParsedContact>, Thrown>
  {
    match input
    case ParserError(message) => Err(PlainError("CSV parsing error: " + message))
    case Parsed(rows) => Ok(CsvContacts(rows, options))
  }

  function VCardOutcome(file: ReadOutcome, parseCard: string -> CardParse): Result<seq<ParsedContact>, Thrown>
  {
    match file
    case ReadFailed => Err(PlainError("Failed to read file"))
    case Read(text) => Ok(VCardContacts(text, parseCard))
  }

  /** `parseContactFile`: CSV names go to the CSV parser (without explicit
      columns), vCard names to the vCard parser, anything else is rejected. */
  function ParseContactFile(file: ContactFile, parseCard: string -> CardParse): (r: Result<seq<ParsedContact>, Thrown>)
    ensures KindOf(file.name) == CsvFile ==> r == CsvOutcome(file.csv, NoOptions)
    ensures KindOf(file.name) == VCardFile ==> r == VCardOutcome(file.text, parseCard)
    ensures KindOf(file.name) == UnsupportedFile ==> r == Err(PlainError(UnsupportedMessage))
  {
    match KindOf(file.name)
    case CsvFile => CsvOutcome(file.csv, NoOptions)
    case VCardFile => VCardOutcome(file.text, parseCard)
    case UnsupportedFile => Err(PlainError(UnsupportedMessage))
  }

  /** An unsupported name is rejected without looking at the content: two
      files with that name give the same rejection whatever they hold. */
  lemma UnsupportedIgnoresContent(f: ContactFile, g: ContactFile, p: string -> CardParse, q: string -> CardParse)
    requires f.name == g.name && KindOf(f.name) == UnsupportedFile
    ensures ParseContactFile(f, p) == ParseContactFile(g, q) == Err(PlainError(UnsupportedMessage))
  {
  }

  /** "contacts.txt" is unsupported. */
  lemma TxtIsUnsupported()
    ensures KindOf("contacts.txt") == UnsupportedFile
  {
    var l := Lower("contacts.txt");
    assert l == "contacts.txt";
    assert l[|l| - 4..] == ".txt";
    assert l[|l| - 6..] == "ts.txt";
  }

  // ================================================================ saving and validation

  /** A contact ready to be stored: `Omit<Contact, 'id'>` with its owner. */
  datatype NewContact = NewContact(ownerId: string, name: string, email: Option<string>, phone: Option<string>)

  /** `prepareContactsForSave`: each parsed contact, in order, with the owner attached. */
  function PrepareContactsForSave(parsed: seq<ParsedContact>, ownerId: string): (r: seq<NewContact>)
    ensures |r| == |parsed|
    ensures forall i :: 0 <= i < |r| ==>
              r[i].ownerId == ownerId && ParsedContact(r[i].name, r[i].email, r[i].phone) == parsed[i]
  {
    seq(|parsed|, i requires 0 <= i < |parsed| =>
      NewContact(ownerId, parsed[i].name, parsed[i].email, parsed[i].phone))
  }

  const MissingName := "Missing name"
  const NoEmailOrPhone := "No email or phone"

  /** Why a contact is invalid, if it is: the name is checked first. */
  function Rejection(c: ParsedContact): Option<string>
  {
    if c.name == "" then Some(MissingName)
    else if !Truthy(c.email) && !Truthy(c.phone) then Some(NoEmailOrPhone)
    else None
  }

  datatype InvalidContact = InvalidContact(contact: ParsedContact, reason: string)

  function Accept(c: ParsedContact): Option<ParsedContact>
  {
    if Rejection(c).None? then Some(c) else None
  }

  function Reject(c: ParsedContact): Option<InvalidContact>
  {
    match Rejection(c)
    case Some(reason) => Some(InvalidContact(c, reason))
    case None => None
  }

  /** `validateContacts`: the valid contacts and the rejected ones with their
      reasons, each bucket in input order. */
  method ValidateContacts(contacts: seq<ParsedContact>)
    returns (valid: seq<ParsedContact>, invalid: seq<InvalidContact>)
    ensures valid == FilterMap(contacts, Accept)
    ensures invalid == FilterMap(contacts, Reject)
  {
    valid, invalid := [], [];
    for i := 0 to |contacts|
      invariant valid == FilterMap(contacts[..i], Accept)
      invariant invalid == FilterMap(contacts[..i], Reject)
    {
      FilterMapSnoc(contacts, i, Accept);
      FilterMapSnoc(contacts, i, Reject);
      var contact := contacts[i];
      if contact.name == "" {
        invalid := invalid + [InvalidContact(contact, MissingName)];
      } else if !Truthy(contact.email) && !Truthy(contact.phone) {
        invalid := invalid + [InvalidContact(contact, NoEmailOrPhone)];
      } else {
        valid := valid + [contact];
      }
    }
    assert contacts[..|contacts|] == contacts;
  }

  /** The contacts behind a list of rejections. */
  function RejectedContacts(invalid: seq<InvalidContact>): (r: seq<ParsedContact>)
    ensures |r| == |invalid| && forall k :: 0 <= k < |r| ==> r[k] == invalid[k].contact
  {
    seq(|invalid|, k requires 0 <= k < |invalid| => invalid[k].contact)
  }

  /** Every contact lands in exactly one bucket. */
  lemma {:induction false} ValidationPartitions(contacts: seq<ParsedContact>)
    ensures |FilterMap(contacts, Accept)| + |FilterMap(contacts, Reject)| == |contacts|
    ensures multiset(FilterMap(contacts, Accept)) + multiset(RejectedContacts(FilterMap(contacts, Reject)))
            == multiset(contacts)
  {
    if |contacts| > 0 {
      var init := contacts[..|contacts| - 1];
      var c := contacts[|contacts| - 1];
      ValidationPartitions(init);
      var val, inv := FilterMap(init, Accept), FilterMap(init, Reject);
      assert contacts == init + [c];
      assert multiset(contacts) == multiset(init) + multiset{c};
      if Rejection(c).None? {
        assert FilterMap(contacts, Accept) == val + [c];
        assert FilterMap(contacts, Reject) == inv;
      } else {
        var bad := InvalidContact(c, Rejection(c).value);
        assert FilterMap(contacts, Accept) == val;
        assert FilterMap(contacts, Reject) == inv + [bad];
        assert RejectedContacts(inv + [bad]) == RejectedContacts(inv) + [c];
      }
    }
  }

  /** The validator on [nameless, complete, no contact info]. */
  lemma ValidationExample()
    ensures var a := ParsedContact("", Some("x@y.z"), None);
            var b := ParsedContact("A", Some("a@b.com"), None);
            var c := ParsedContact("B", None, None);
            FilterMap([a, b, c], Accept) == [b]
            && FilterMap([a, b, c], Reject) == [InvalidContact(a, MissingName), InvalidContact(c, NoEmailOrPhone)]
  {
    var a := ParsedContact("", Some("x@y.z"), None);
    var b := ParsedContact("A", Some("a@b.com"), None);
    var c := ParsedContact("B", None, None);
    var xs := [a, b, c];
    assert xs[..0] == [] && xs[..1] == [a] && xs[..2] == [a, b] && xs[..3] == xs;
    FilterMapSnoc(xs, 0, Accept);
    FilterMapSnoc(xs, 1, Accept);
    FilterMapSnoc(xs, 2, Accept);
    FilterMapSnoc(xs, 0, Reject);
    FilterMapSnoc(xs, 1, Reject);
    FilterMapSnoc(xs, 2, Reject);
  }

  /** Whatever the CSV path emits passes validation untouched. */
  lemma CsvOutputIsValid(rows: seq<Row>, options: CsvOptions)
    ensures FilterMap(CsvContacts(rows, options), Accept) == CsvContacts(rows, options)
    ensures FilterMap(CsvContacts(rows, options), Reject) == []
  {
    var out := CsvContacts(rows, options);
    forall c | c in out ensures Rejection(c).None? {
      CsvContactsComplete(rows, options, c);
    }
    AllAccepted(out);
  }

  /** Whatever the vCard path emits passes validation untouched. */
  lemma VCardOutputIsValid(cards: seq<string>, parseCard: string -> CardParse)
    ensures FilterMap(CardsContacts(cards, parseCard), Accept) == CardsContacts(cards, parseCard)
    ensures FilterMap(CardsContacts(cards, parseCard), Reject) == []
  {
    var out := CardsContacts(cards, parseCard);
    forall c | c in out ensures Rejection(c).None? {
      VCardContactsComplete(cards, parseCard, c);
    }
    AllAccepted(out);
  }

  lemma {:induction false} AllAccepted(cs: seq<ParsedContact>)
    requires forall c :: c in cs ==> Rejection(c).None?
    ensures FilterMap(cs, Accept) == cs && FilterMap(cs, Reject) == []
  {
    if |cs| > 0 {
      var init := cs[..|cs| - 1];
      assert forall c :: c in init ==> c in cs;
      AllAccepted(init);
      assert cs == init + [cs[|cs| - 1]];
    }
  }
}
