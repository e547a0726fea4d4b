/** The offline seed-data script: random user records and their CSV serialisation.
    Every `Math.floor(Math.random() * n)` draw is an argument here, constrained to the range
    it can produce. The coin `Math.random() > 0.5` is the choice between the two kinds of
    `CharPick`, and the province and city, drawn from the area list, are given as strings. */
module SeedData {
  import opened Wrappers
  import opened SeqFacts

  // ---------------------------------------------------------------------------
  // Decimal digits (JavaScript's `String(n)` for a non-negative integer)
  // ---------------------------------------------------------------------------

  predicate IsDigit(c: char) { '0' <= c <= '9' }

  predicate AllDigits(s: string) { forall k :: 0 <= k < |s| ==> IsDigit(s[k]) }

  /** The non-negative integers a JavaScript number holds exactly: up to
      `Number.MAX_SAFE_INTEGER`, 2^53 - 1, where `String` prints their exact digits. */
  type SafeNat = n: nat | n <= 9007199254740991

  function DigitChar(d: nat): (c: char)
    requires d < 10
    ensures IsDigit(c) && c as int - '0' as int == d
  {
    ('0' as int + d) as char
  }

  /** `String(n)`: the decimal digits of `n`, most significant first, without leading zeros.
      JavaScript prints exactly these digits for the integers of `SafeNat`. */
  function DecimalString(n: nat): (r: string)
    ensures |r| >= 1 && AllDigits(r)
    ensures n >= 10 ==> r[0] != '0'
  {
    if n < 10 then [DigitChar(n)] else DecimalString(n / 10) + [DigitChar(n % 10)]
  }

  /** The number a string of decimal digits denotes. */
  function DigitsValue(s: string): nat
    requires AllDigits(s)
  {
    if s == [] then 0 else DigitsValue(s[..|s| - 1]) * 10 + (s[|s| - 1] as int - '0' as int)
  }

  function Pow10(k: nat): (r: nat)
    ensures r >= 1
  {
    if k == 0 then 1 else 10 * Pow10(k - 1)
  }

  /** Reading `String(n)` back as a number gives `n`. */
  lemma {:induction false} DecimalStringValue(n: nat)
    ensures DigitsValue(DecimalString(n)) == n
  {
    if n >= 10 {
      DecimalStringValue(n / 10);
      var s := DecimalString(n);
      assert s[..|s| - 1] == DecimalString(n / 10);
    }
  }

  /** A number below 10^k has at most k digits. */
  lemma {:induction false} DecimalStringLength(n: nat, k: nat)
    requires 1 <= k && n < Pow10(k)
    ensures |DecimalString(n)| <= k
  {
    if n >= 10 {
      if k == 1 {
        assert false;
      } else {
        DecimalStringLength(n / 10, k - 1);
      }
    }
  }

  /** Zeros in front of a digit string do not change its value. */
  lemma {:induction false} LeadingZerosValue(zeros: string, s: string)
    requires forall k :: 0 <= k < |zeros| ==> zeros[k] == '0'
    requires AllDigits(s)
    ensures AllDigits(zeros + s) && DigitsValue(zeros + s) == DigitsValue(s)
  {
    if s == [] {
      assert zeros + s == zeros;
      ZerosValue(zeros);
    } else {
      LeadingZerosValue(zeros, s[..|s| - 1]);
      assert (zeros + s)[..|zeros + s| - 1] == zeros + s[..|s| - 1];
    }
  }

  lemma {:induction false} ZerosValue(zeros: string)
    requires forall k :: 0 <= k < |zeros| ==> zeros[k] == '0'
    ensures AllDigits(zeros) && DigitsValue(zeros) == 0
  {
    if zeros != [] {
      ZerosValue(zeros[..|zeros| - 1]);
    }
  }

  /** `s.padStart(width, fill)` */
  function PadStart(s: string, width: nat, fill: char): (r: string)
    ensures |s| <= width ==> |r| == width && r[width - |s|..] == s
    ensures |s| <= width ==> forall k :: 0 <= k < width - |s| ==> r[k] == fill
    ensures |s| > width ==> r == s
  {
    if |s| >= width then s else seq(width - |s|, _ => fill) + s
  }

  // ---------------------------------------------------------------------------
  // Random generators (generate-data.mjs lines 13-75)
  // ---------------------------------------------------------------------------

  /** The characters community and house-number strings draw from. */
  const CommonChineseChars: string := "一二三四五六七八九十百千万东南西北中上下左右前后内外新旧大小高低远近"

  const Surnames: seq<string> := ["王", "李", "张", "刘", "陈", "杨", "赵", "黄", "周", "吴", "徐", "孙", "胡", "朱", "高", "林", "何", "郭", "马", "罗", "梁", "宋", "郑", "谢", "韩", "唐", "冯", "于", "董", "萧", "程", "曹", "袁", "邓", "许", "傅", "沈", "曾", "彭", "吕", "苏", "卢", "蒋", "蔡", "贾", "丁", "魏", "薛", "叶", "阎"]

  const GivenNames: seq<string> := ["伟", "芳", "娜", "秀英", "敏", "静", "丽", "强", "磊", "军", "洋", "勇", "艳", "杰", "娟", "涛", "明", "超", "秀兰", "霞", "平", "刚", "桂英", "建华", "文", "华", "红", "建国", "建华", "志强", "秀", "桂", "桂芳", "秀", "秀", "秀", "秀", "秀", "秀"]

  /** The per-user draw count every generated record carries. */
  const InitialDrawCount: nat := 4

  /** The values `Math.floor(Math.random() * n)` can produce, for each `n` the script uses
      (the phone draw multiplies by 10000000000). */
  type HanIndex = i: nat | i < 34
  type DigitDraw = d: nat | d < 10
  type SurnameIndex = i: nat | i < 50
  type GivenNameIndex = i: nat | i < 39
  type PhoneDraw = n: nat | n < 10000000000

  /** One character position of `generateChineseNumberString`: the coin `Math.random() > 0.5`
      chooses the constructor, the second draw the index into the character set or the digit. */
  datatype CharPick = Han(index: HanIndex) | Digit(value: DigitDraw)

  /** The draws of one `generateChineseNumberString` call: the length draw, then one pick per position. */
  datatype TextDraw = TextDraw(lengthDraw: nat, picks: seq<CharPick>)

  /** The draws fit `generateChineseNumberString(minLength, maxLength)`. */
  predicate ValidTextDraw(d: TextDraw, minLength: nat, maxLength: nat) {
    && minLength <= maxLength
    && d.lengthDraw <= maxLength - minLength
    && |d.picks| >= minLength + d.lengthDraw
  }

  /** A character `generateChineseNumberString` may emit. */
  predicate IsChineseOrDigit(c: char) { c in CommonChineseChars || IsDigit(c) }

  /** The text one pick appends: a character of the set, or the digit printed by `String`. */
  function PickText(p: CharPick): (r: string)
    ensures |r| == 1
  {
    match p
    case Han(i) => [CommonChineseChars[i]]
    case Digit(d) => DecimalString(d)
  }

  /** What `generateChineseNumberString(minLength, maxLength)` returns for the given draws. */
  function ChineseNumberString(minLength: nat, maxLength: nat, d: TextDraw): (r: string)
    requires ValidTextDraw(d, minLength, maxLength)
    ensures minLength <= |r| <= maxLength
    ensures |r| == minLength + d.lengthDraw
  {
    seq(minLength + d.lengthDraw, k requires 0 <= k < minLength + d.lengthDraw => PickText(d.picks[k])[0])
  }

  /** Every character a pick appends is a common Chinese character or a digit. */
  lemma PickTextClass(p: CharPick)
    ensures IsChineseOrDigit(PickText(p)[0])
  {
    if p.Digit? {
      assert PickText(p) == [DigitChar(p.value)];
    }
  }

  /** Every character of the generated string is a common Chinese character or a digit. */
  lemma ChineseNumberStringClass(minLength: nat, maxLength: nat, d: TextDraw)
    requires ValidTextDraw(d, minLength, maxLength)
    ensures var r := ChineseNumberString(minLength, maxLength, d);
      forall k :: 0 <= k < |r| ==> IsChineseOrDigit(r[k])
  {
    var r := ChineseNumberString(minLength, maxLength, d);
    forall k | 0 <= k < |r| ensures IsChineseOrDigit(r[k]) {
      PickTextClass(d.picks[k]);
    }
  }

  /** The script's loop: draw a length, then append one character or digit per position. */
  method GenerateChineseNumberString(minLength: nat, maxLength: nat, d: TextDraw) returns (result: string)
    requires ValidTextDraw(d, minLength, maxLength)
    ensures result == ChineseNumberString(minLength, maxLength, d)
  {
    var length := d.lengthDraw + minLength;
    result := "";
    var i := 0;
    while i < length
      invariant 0 <= i <= length
      invariant |result| == i
      invariant forall k :: 0 <= k < i ==> result[k] == PickText(d.picks[k])[0]
    {
      result := result + PickText(d.picks[i]);
      i := i + 1;
    }
  }

  /** `generateName`: a surname followed by a given name. */
  function GenerateName(surname: SurnameIndex, givenName: GivenNameIndex): string {
    Surnames[surname] + GivenNames[givenName]
  }

  /** `generatePhone`: "1" followed by the draw, zero-padded to ten digits. */
  function GeneratePhone(draw: PhoneDraw): (r: string)
    ensures |r| == 11 && r[0] == '1' && AllDigits(r)
    ensures DigitsValue(r[1..]) == draw
  {
    var digits := DecimalString(draw);
    DecimalStringLength(draw, 10);
    DecimalStringValue(draw);
    var padded := PadStart(digits, 10, '0');
    LeadingZerosValue(padded[..10 - |digits|], digits);
    assert padded == padded[..10 - |digits|] + digits;
    assert ("1" + padded)[1..] == padded;
    "1" + padded
  }

  /** One generated record. */
  datatype User = User(
    name: string,
    phone: string,
    province: string,
    city: string,
    community: string,
    houseNumber: string,
    drawCount: SafeNat)

  /** All draws behind one `generateUser` call. The province and city stand for the result of
      the area lookup, which reads a data file outside this model. */
  datatype UserDraw = UserDraw(
    surname: SurnameIndex,
    givenName: GivenNameIndex,
    phone: PhoneDraw,
    province: string,
    city: string,
    community: TextDraw,
    houseNumber: TextDraw)

  predicate ValidUserDraw(d: UserDraw) {
    && ValidTextDraw(d.community, 3, 8)
    && ValidTextDraw(d.houseNumber, 2, 6)
  }

  /** A draw `generateUser` can be run on. */
  type ValidDraw = d: UserDraw | ValidUserDraw(d)
    witness UserDraw(0, 0, 0, "", "", TextDraw(0, [Digit(0), Digit(0), Digit(0)]), TextDraw(0, [Digit(0), Digit(0)]))

  /** `generateUser` */
  function GenerateUser(d: ValidDraw): (u: User)
    ensures u.drawCount == 4
    ensures |u.phone| == 11 && u.phone[0] == '1' && AllDigits(u.phone)
    ensures 3 <= |u.community| <= 8 && 2 <= |u.houseNumber| <= 6
    ensures u.province == d.province && u.city == d.city
  {
    User(
      GenerateName(d.surname, d.givenName),
      GeneratePhone(d.phone),
      d.province,
      d.city,
      ChineseNumberString(3, 8, d.community),
      ChineseNumberString(2, 6, d.houseNumber),
      InitialDrawCount)
  }

  /** The community and the house number of a generated record are made of common Chinese
      characters and decimal digits only. */
  lemma GenerateUserText(d: ValidDraw)
    ensures var u := GenerateUser(d);
      && (forall k :: 0 <= k < |u.community| ==> IsChineseOrDigit(u.community[k]))
      && (forall k :: 0 <= k < |u.houseNumber| ==> IsChineseOrDigit(u.houseNumber[k]))
  {
    ChineseNumberStringClass(3, 8, d.community);
    ChineseNumberStringClass(2, 6, d.houseNumber);
  }

  // ---------------------------------------------------------------------------
  // CSV escaping (generate-data.mjs lines 77-87)
  // ---------------------------------------------------------------------------

  /** A value handed to `escapeCSV`. */
  datatype Value = Null | Undefined | Text(s: string) | Number(n: SafeNat)

  /** `String(value)` for a present value. */
  function StringOf(v: Value): string
    requires !v.Null? && !v.Undefined?
  {
    match v
    case Text(s) => s
    case Number(n) => DecimalString(n)
  }

  /** The text a CSV reader recovers from a field: null and undefined become empty. */
  function Shown(v: Value): string {
    if v.Null? || v.Undefined? then "" else StringOf(v)
  }

  /** The quoting trigger: a comma, a double quote or a line feed (a lone carriage return does not trigger). */
  predicate NeedsQuoting(s: string) { ',' in s || '"' in s || '\n' in s }

  /** `s.replace(/"/g, '""')` */
  function DoubleQuotes(s: string): (r: string)
    ensures |r| >= |s|
    ensures '"' !in s ==> r == s
    ensures '"' in s ==> |r| > |s|
  {
    if s == [] then [] else (if s[0] == '"' then "\"\"" else [s[0]]) + DoubleQuotes(s[1..])
  }

  /** `escapeCSV` */
  function EscapeCsv(v: Value): (r: string)
    ensures v.Null? || v.Undefined? ==> r == ""
  {
    if v.Null? || v.Undefined? then ""
    else
      var s := StringOf(v);
      if NeedsQuoting(s) then "\"" + DoubleQuotes(s) + "\"" else s
  }

  /** Inverse of `DoubleQuotes`: every `""` becomes `"`. */
  function CollapseQuotes(s: string): string {
    if s == [] then []
    else if |s| >= 2 && s[0] == '"' && s[1] == '"' then "\"" + CollapseQuotes(s[2..])
    else [s[0]] + CollapseQuotes(s[1..])
  }

  /** Undo `EscapeCsv` on one field: strip the enclosing quotes and collapse the doubled ones. */
  function Unescape(r: string): string {
    if |r| >= 2 && r[0] == '"' && r[|r| - 1] == '"' then CollapseQuotes(r[1..|r| - 1]) else r
  }

  lemma {:induction false} CollapseDoubled(s: string)
    ensures CollapseQuotes(DoubleQuotes(s)) == s
  {
    if s != [] {
      CollapseDoubled(s[1..]);
      if s[0] == '"' {
        assert DoubleQuotes(s)[2..] == DoubleQuotes(s[1..]);
      } else {
        assert DoubleQuotes(s)[1..] == DoubleQuotes(s[1..]);
      }
    }
  }

  /** A string without a comma, a double quote or a line feed is left as it is. */
  lemma EscapePlain(s: string)
    requires !NeedsQuoting(s)
    ensures EscapeCsv(Text(s)) == s
  {
  }

  /** A string with a comma, a double quote or a line feed comes back enclosed in double quotes,
      and stripping them and collapsing the doubled quotes gives the string back. */
  lemma EscapeQuoted(s: string)
    requires NeedsQuoting(s)
    ensures var r := EscapeCsv(Text(s));
      && |r| >= 2 && r[0] == '"' && r[|r| - 1] == '"'
      && r[1..|r| - 1] == DoubleQuotes(s)
      && CollapseQuotes(r[1..|r| - 1]) == s
  {
    var r := EscapeCsv(Text(s));
    assert r[1..|r| - 1] == DoubleQuotes(s);
    CollapseDoubled(s);
  }

  /** Escaping a present value and unescaping the field gives back `String(value)`. */
  lemma EscapeRoundTrip(v: Value)
    ensures Unescape(EscapeCsv(v)) == Shown(v)
  {
    if !v.Null? && !v.Undefined? {
      var s := StringOf(v);
      if NeedsQuoting(s) {
        EscapeQuoted(s);
        assert EscapeCsv(v) == EscapeCsv(Text(s));
      } else if |s| >= 2 {
        assert s[0] != '"';
      }
    }
  }

  // ---------------------------------------------------------------------------
  // Rows and the document (generate-data.mjs lines 89-133)
  // ---------------------------------------------------------------------------

  /** `fields.join(',')` */
  function JoinFields(fields: seq<string>): string {
    if fields == [] then ""
    else if |fields| == 1 then fields[0]
    else fields[0] + "," + JoinFields(fields[1..])
  }

  function EscapeAll(vs: seq<Value>): (r: seq<string>)
    ensures |r| == |vs| && forall k :: 0 <= k < |vs| ==> r[k] == EscapeCsv(vs[k])
  {
    seq(|vs|, k requires 0 <= k < |vs| => EscapeCsv(vs[k]))
  }

  function ShownAll(vs: seq<Value>): (r: seq<string>)
    ensures |r| == |vs| && forall k :: 0 <= k < |vs| ==> r[k] == Shown(vs[k])
  {
    seq(|vs|, k requires 0 <= k < |vs| => Shown(vs[k]))
  }

  /** One CSV line: the escaped values joined by commas, ended by a line feed. */
  function Row(vs: seq<Value>): (r: string)
    ensures |r| > 0 && r[|r| - 1] == '\n'
  {
    JoinFields(EscapeAll(vs)) + "\n"
  }

  const Headers: seq<string> := ["姓名", "手机号", "省份", "城市", "社区", "门牌号", "抽奖次数"]

  /** The header line: the column names joined by commas (not escaped). */
  function HeaderLine(): string {
    JoinFields(Headers) + "\n"
  }

  /** The seven values of a record, in column order. */
  function UserValues(u: User): (vs: seq<Value>)
    ensures |vs| == |Headers|
  {
    [Text(u.name), Text(u.phone), Text(u.province), Text(u.city),
     Text(u.community), Text(u.houseNumber), Number(u.drawCount)]
  }

  /** What a CSV reader gets back from a record's line. */
  function UserFields(u: User): seq<string> {
    [u.name, u.phone, u.province, u.city, u.community, u.houseNumber, DecimalString(u.drawCount)]
  }

  function UserRow(u: User): string {
    Row(UserValues(u))
  }

  function Rows(users: seq<User>): string {
    if users == [] then "" else UserRow(users[0]) + Rows(users[1..])
  }

  /** The whole `users.csv` text for the given records. */
  function CsvDocument(users: seq<User>): string {
    HeaderLine() + Rows(users)
  }

  lemma RowsAppend(users: seq<User>, u: User)
    ensures Rows(users + [u]) == Rows(users) + UserRow(u)
  {
    RowsConcat(users, [u]);
    assert [u][1..] == [];
    assert Rows([u]) == UserRow(u) + "";
  }

  /** Appending a record's line to the document gives the document with that record added. */
  lemma DocumentAppend(users: seq<User>, u: User)
    ensures CsvDocument(users + [u]) == CsvDocument(users) + UserRow(u)
  {
    RowsAppend(users, u);
  }

  /** The records a generator makes from the given draws, one per draw and in order. The batch
      loops below are proved for any generator and used with `GenerateUser`. */
  function Generated(gen: ValidDraw -> User, draws: seq<ValidDraw>): (users: seq<User>)
    ensures |users| == |draws|
    ensures forall k :: 0 <= k < |draws| ==> users[k] == gen(draws[k])
  {
    if draws == [] then [] else Generated(gen, draws[..|draws| - 1]) + [gen(draws[|draws| - 1])]
  }

  /** The records `generateUser` makes from the given draws. */
  function UsersOf(draws: seq<ValidDraw>): (users: seq<User>)
    ensures |users| == |draws|
    ensures forall k :: 0 <= k < |draws| ==> users[k] == GenerateUser(draws[k])
  {
    Generated(GenerateUser, draws)
  }

  lemma {:induction false} GeneratedConcat(gen: ValidDraw -> User, a: seq<ValidDraw>, b: seq<ValidDraw>)
    ensures Generated(gen, a + b) == Generated(gen, a) + Generated(gen, b)
  {
    if b != [] {
      var b' := b[..|b| - 1];
      GeneratedConcat(gen, a, b');
      assert (a + b)[..|a + b| - 1] == a + b';
    } else {
      assert a + b == a;
    }
  }

  /** One step of the generation loop: `batchData.push(generateUser())`. */
  method PushUser(gen: ValidDraw -> User, draws: seq<ValidDraw>, from: nat, i: nat, batchData: seq<User>)
    returns (grown: seq<User>)
    requires from + i < |draws| && batchData == Generated(gen, draws[from..from + i])
    ensures grown == Generated(gen, draws[from..from + i + 1])
  {
    var user := gen(draws[from + i]);
    grown := batchData + [user];
    ghost var drawn := draws[from..from + i + 1];
    assert drawn[..i] == draws[from..from + i];
  }

  /** How many records the script writes, and how many it generates per batch. */
  const TotalRecords: nat := 200000
  const BatchSize: nat := 10000

  /** The inner generation loop: one batch of records, from the draws at `from` onwards. */
  method GenerateBatch(gen: ValidDraw -> User, draws: seq<ValidDraw>, from: nat) returns (batchData: seq<User>)
    requires from + BatchSize <= |draws|
    ensures batchData == Generated(gen, draws[from..from + BatchSize])
  {
    batchData := [];
    var i := 0;
    while i < BatchSize
      invariant 0 <= i <= BatchSize
      invariant batchData == Generated(gen, draws[from..from + i])
    {
      batchData := PushUser(gen, draws, from, i, batchData);
      i := i + 1;
    }
  }

  /** The inner writing loop: appends one CSV line per record of the batch. */
  method AppendRows(csvContent: string, batchData: seq<User>) returns (written: string)
    ensures written == csvContent + Rows(batchData)
  {
    written := csvContent;
    var j := 0;
    while j < |batchData|
      invariant 0 <= j <= |batchData|
      invariant written == csvContent + Rows(batchData[..j])
    {
      RowsPrefix(batchData, j);
      ConcatAssoc(csvContent, Rows(batchData[..j]), UserRow(batchData[j]));
      written := written + UserRow(batchData[j]);
      j := j + 1;
    }
    assert batchData[..j] == batchData;
  }

  lemma RowsPrefix(users: seq<User>, j: nat)
    requires j < |users|
    ensures Rows(users[..j + 1]) == Rows(users[..j]) + UserRow(users[j])
  {
    RowsAppend(users[..j], users[j]);
    assert users[..j + 1] == users[..j] + [users[j]];
  }

  lemma {:induction false} RowsConcat(a: seq<User>, b: seq<User>)
    ensures Rows(a + b) == Rows(a) + Rows(b)
  {
    if a != [] {
      var line := UserRow(a[0]);
      calc {
        Rows(a + b);
      == { assert (a + b)[0] == a[0] && (a + b)[1..] == a[1..] + b; }
        line + Rows(a[1..] + b);
      == { RowsConcat(a[1..], b); }
        line + (Rows(a[1..]) + Rows(b));
      == { ConcatAssoc(line, Rows(a[1..]), Rows(b)); }
        Rows(a) + Rows(b);
      }
    } else {
      assert a + b == b;
    }
  }

  lemma DocumentBatch(gen: ValidDraw -> User, draws: seq<ValidDraw>, done: nat)
    requires done + BatchSize <= |draws|
    ensures Rows(Generated(gen, draws[..done + BatchSize]))
      == Rows(Generated(gen, draws[..done])) + Rows(Generated(gen, draws[done..done + BatchSize]))
  {
    GeneratedConcat(gen, draws[..done], draws[done..done + BatchSize]);
    assert draws[..done] + draws[done..done + BatchSize] == draws[..done + BatchSize];
    RowsConcat(Generated(gen, draws[..done]), Generated(gen, draws[done..done + BatchSize]));
  }

  /** `generateData` without the file write: the header line, then `TotalRecords` records made
      in batches of `BatchSize`, each batch first generated and then appended as CSV lines. */
  method GenerateData(draws: seq<ValidDraw>) returns (csvContent: string)
    requires |draws| == TotalRecords
    ensures csvContent == CsvDocument(UsersOf(draws))
  {
    csvContent := HeaderLine();
    assert draws[..0] == [];
    var done := 0;
    var batch := 0;
    while batch < TotalRecords / BatchSize
      invariant 0 <= batch <= TotalRecords / BatchSize
      invariant done == batch * BatchSize
      invariant csvContent == HeaderLine() + Rows(Generated(GenerateUser, draws[..done]))
    {
      ghost var written := Rows(Generated(GenerateUser, draws[..done]));
      var batchData := GenerateBatch(GenerateUser, draws, done);
      csvContent := AppendRows(csvContent, batchData);
      DocumentBatch(GenerateUser, draws, done);
      ConcatAssoc(HeaderLine(), written, Rows(batchData));
      done := done + BatchSize;
      batch := batch + 1;
    }
    assert draws[..done] == draws;
  }

  // ---------------------------------------------------------------------------
  // A reference CSV reader in the style of RFC 4180 (section 2), whose records end at a line
  // feed rather than CRLF, used to state the round trip
  // ---------------------------------------------------------------------------

  /** Reads the rest of a quoted field after its opening quote: `""` stands for one quote and a
      lone quote closes the field. Gives the field's text and what follows the closing quote. */
  function ReadQuoted(s: string): (r: Option<(string, string)>)
    ensures r.Some? ==> |r.value.1| < |s|
  {
    if s == [] then None
    else if s[0] == '"' then
      if |s| >= 2 && s[1] == '"' then
        match ReadQuoted(s[2..])
        case None => None
        case Some((text, rest)) => Some(("\"" + text, rest))
      else Some(("", s[1..]))
    else
      match ReadQuoted(s[1..])
      case None => None
      case Some((text, rest)) => Some(([s[0]] + text, rest))
  }

  /** Reads an unquoted field up to the next comma or line feed. */
  function ReadUnquoted(s: string): (r: (string, string))
    ensures |r.1| <= |s|
  {
    if s == [] || s[0] == ',' || s[0] == '\n' then ("", s)
    else
      var (text, rest) := ReadUnquoted(s[1..]);
      ([s[0]] + text, rest)
  }

  function ReadField(s: string): (r: Option<(string, string)>)
    ensures r.Some? ==> |r.value.1| <= |s|
  {
    if s != [] && s[0] == '"' then ReadQuoted(s[1..]) else Some(ReadUnquoted(s))
  }

  /** Reads one record: fields separated by commas, ended by a line feed. */
  function ReadRecord(s: string): (r: Option<(seq<string>, string)>)
    ensures r.Some? ==> |r.value.1| < |s|
    decreases |s|
  {
    match ReadField(s)
    case None => None
    case Some((field, rest)) =>
      if rest == [] then None
      else if rest[0] == '\n' then Some(([field], rest[1..]))
      else if rest[0] == ',' then
        match ReadRecord(rest[1..])
        case None => None
        case Some((fields, tail)) => Some(([field] + fields, tail))
      else None
  }

  /** Reads a whole document of line-feed-terminated records. */
  function ReadDocument(s: string): Option<seq<seq<string>>>
    decreases |s|
  {
    if s == [] then Some([])
    else
      match ReadRecord(s)
      case None => None
      case Some((fields, rest)) =>
        match ReadDocument(rest)
        case None => None
        case Some(records) => Some([fields] + records)
  }

  predicate StartsWithSeparator(tail: string) {
    tail != [] && (tail[0] == ',' || tail[0] == '\n')
  }

  lemma {:induction false} ReadUnquotedPlain(s: string, tail: string)
    requires !NeedsQuoting(s) && StartsWithSeparator(tail)
    ensures ReadUnquoted(s + tail) == (s, tail)
  {
    if s != [] {
      assert s == [s[0]] + s[1..];
      assert s[0] in s;
      assert !NeedsQuoting(s[1..]);
      ReadUnquotedPlain(s[1..], tail);
      assert (s + tail)[1..] == s[1..] + tail;
    } else {
      assert s + tail == tail;
    }
  }

  lemma {:induction false} ReadQuotedDoubled(s: string, tail: string)
    requires StartsWithSeparator(tail)
    ensures ReadQuoted(DoubleQuotes(s) + "\"" + tail) == Some((s, tail))
  {
    var t := DoubleQuotes(s) + "\"" + tail;
    if s == [] {
      assert t == "\"" + tail;
      assert t[1..] == tail;
    } else if s[0] == '"' {
      ReadQuotedDoubled(s[1..], tail);
      assert t[2..] == DoubleQuotes(s[1..]) + "\"" + tail;
      assert "\"" + s[1..] == s;
    } else {
      ReadQuotedDoubled(s[1..], tail);
      assert t[1..] == DoubleQuotes(s[1..]) + "\"" + tail;
      assert [s[0]] + s[1..] == s;
    }
  }

  lemma ReadQuotedField(s: string, tail: string)
    requires StartsWithSeparator(tail)
    ensures ReadField("\"" + DoubleQuotes(s) + "\"" + tail) == Some((s, tail))
  {
    var q := "\"";
    var x := (DoubleQuotes(s) + q) + tail;
    ConcatAssoc(q, DoubleQuotes(s), q);
    ConcatAssoc(q, DoubleQuotes(s) + q, tail);
    DropFirst('"', x);
    ReadQuotedDoubled(s, tail);
  }

  lemma ReadPlainField(s: string, tail: string)
    requires StartsWithSeparator(tail) && !NeedsQuoting(s)
    ensures ReadField(s + tail) == Some((s, tail))
  {
    ReadUnquotedPlain(s, tail);
    if s != [] {
      assert s[0] in s;
      assert (s + tail)[0] == s[0];
    } else {
      assert s + tail == tail;
    }
  }

  /** Reading an escaped field gives back the value's text and stops at the separator. */
  lemma ReadEscapedField(v: Value, tail: string)
    requires StartsWithSeparator(tail)
    ensures ReadField(EscapeCsv(v) + tail) == Some((Shown(v), tail))
  {
    if v.Null? || v.Undefined? {
      assert EscapeCsv(v) == "" && Shown(v) == "";
      ReadPlainField("", tail);
    } else {
      var s := StringOf(v);
      assert Shown(v) == s;
      if NeedsQuoting(s) {
        assert EscapeCsv(v) == "\"" + DoubleQuotes(s) + "\"";
        ReadQuotedField(s, tail);
      } else {
        assert EscapeCsv(v) == s;
        ReadPlainField(s, tail);
      }
    }
  }

  /** A row of one value is its escaped text and the line feed. */
  lemma RowSingle(v: Value)
    ensures Row([v]) == EscapeCsv(v) + "\n"
  {
    assert EscapeAll([v]) == [EscapeCsv(v)];
  }

  /** A row of several values is the first escaped value, a comma, and the row of the rest. */
  lemma RowCons(vs: seq<Value>)
    requires |vs| >= 2
    ensures Row(vs) == EscapeCsv(vs[0]) + ("," + Row(vs[1..]))
  {
    var fields := EscapeAll(vs);
    assert fields[1..] == EscapeAll(vs[1..]);
    var rest := JoinFields(fields[1..]);
    assert JoinFields(fields) == fields[0] + "," + rest;
    ConcatAssoc(fields[0], ",", rest);
    ConcatAssoc(fields[0], "," + rest, "\n");
    ConcatAssoc(",", rest, "\n");
  }

  /** Reading a row gives back exactly its values' texts, one field per value. */
  lemma {:induction false} ReadRow(vs: seq<Value>, tail: string)
    requires vs != []
    ensures ReadRecord(Row(vs) + tail) == Some((ShownAll(vs), tail))
  {
    if |vs| == 1 {
      RowSingle(vs[0]);
      ConcatAssoc(EscapeCsv(vs[0]), "\n", tail);
      ReadEscapedField(vs[0], "\n" + tail);
      DropFirst('\n', tail);
      assert ShownAll(vs) == [Shown(vs[0])];
    } else {
      var restVs := vs[1..];
      RowCons(vs);
      var after := Row(restVs) + tail;
      ConcatAssoc(EscapeCsv(vs[0]), "," + Row(restVs), tail);
      ConcatAssoc(",", Row(restVs), tail);
      ReadEscapedField(vs[0], "," + after);
      DropFirst(',', after);
      ReadRow(restVs, tail);
      assert [Shown(vs[0])] + ShownAll(restVs) == ShownAll(vs);
    }
  }

  /** The values of plain texts. */
  function TextsOf(fields: seq<string>): (vs: seq<Value>)
    ensures |vs| == |fields| && forall k :: 0 <= k < |fields| ==> vs[k] == Text(fields[k])
  {
    seq(|fields|, k requires 0 <= k < |fields| => Text(fields[k]))
  }

  /** Texts that need no quoting are written as they are and read back as they are. */
  lemma EscapePlainTexts(fields: seq<string>)
    requires forall k :: 0 <= k < |fields| ==> !NeedsQuoting(fields[k])
    ensures EscapeAll(TextsOf(fields)) == fields && ShownAll(TextsOf(fields)) == fields
  {
    forall k | 0 <= k < |fields| ensures EscapeAll(TextsOf(fields))[k] == fields[k] {
      EscapePlain(fields[k]);
    }
  }

  /** The header line is the row of the column names, none of which needs quoting. */
  lemma HeaderLineIsRow()
    ensures HeaderLine() == Row(TextsOf(Headers)) && ShownAll(TextsOf(Headers)) == Headers
  {
    forall k | 0 <= k < |Headers| ensures !NeedsQuoting(Headers[k]) {
    }
    EscapePlainTexts(Headers);
  }

  /** What a CSV reader should get back for the records: one list of fields per record. */
  function FieldRecords(users: seq<User>): (r: seq<seq<string>>)
    ensures |r| == |users|
    ensures forall k :: 0 <= k < |users| ==> r[k] == UserFields(users[k])
  {
    if users == [] then [] else [UserFields(users[0])] + FieldRecords(users[1..])
  }

  lemma {:induction false} ReadRows(users: seq<User>)
    ensures ReadDocument(Rows(users)) == Some(FieldRecords(users))
  {
    if users != [] {
      var u := users[0];
      var rest := Rows(users[1..]);
      var s := Row(UserValues(u)) + rest;
      assert Rows(users) == s;
      ReadRow(UserValues(u), rest);
      assert ShownAll(UserValues(u)) == UserFields(u);
      assert ReadRecord(s) == Some((UserFields(u), rest));
      assert s != [];
      ReadRows(users[1..]);
      assert ReadDocument(s) == Some([UserFields(u)] + FieldRecords(users[1..]));
    }
  }

  /** Every record line ends in a line feed and reads back as exactly as many fields as the
      header has columns. */
  lemma RowMatchesHeader(u: User)
    ensures |UserRow(u)| > 0 && UserRow(u)[|UserRow(u)| - 1] == '\n'
    ensures ReadRecord(UserRow(u)).Some? && |ReadRecord(UserRow(u)).value.0| == |Headers|
  {
    ReadRow(UserValues(u), "");
    assert UserRow(u) + "" == UserRow(u);
  }

  /** The generated file reads back, with the reference reader (RFC 4180-style, records ending at a line feed), as the header record followed by one
      seven-field record per user holding exactly that user's values. */
  lemma CsvRoundTrip(users: seq<User>)
    ensures ReadDocument(CsvDocument(users)) == Some([Headers] + FieldRecords(users))
  {
    HeaderLineIsRow();
    ReadRow(TextsOf(Headers), Rows(users));
    ReadRows(users);
    assert CsvDocument(users) != [];
  }
}
