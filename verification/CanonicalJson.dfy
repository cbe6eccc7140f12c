/** Canonical JSON text: object keys are sorted by UTF-16 code units (section 3.2.3 of
    RFC 8785), so that a value has one text and a text has one value. A number stands for
    the text it prints as. */
module CanonicalJson {
  import opened Basics
  import opened Utf16

  datatype Items = NoItems | Item(head: Json, tail: Items)
  datatype Fields<T> = NoFields | Field(key: Text, value: T, rest: Fields<T>)
  datatype Json = Null | Bool(b: bool) | Number(text: Text) | String(units: Text) | Array(items: Items) | Object(fields: Fields<Json>)

  // ----- order of keys

  predicate Less(a: Text, b: Text) {
    if a == [] then b != [] else b != [] && (a[0] < b[0] || (a[0] == b[0] && Less(a[1..], b[1..])))
  }
  lemma {:induction false} LessTotal(a: Text, b: Text)
    ensures (Less(a, b) && !Less(b, a) && a != b) || (Less(b, a) && !Less(a, b) && a != b) || (a == b && !Less(a, b))
  {
    if a != [] && b != [] {
      LessTotal(a[1..], b[1..]);
      assert a == [a[0]] + a[1..] && b == [b[0]] + b[1..];
    }
  }
  lemma {:induction false} LessTransitive(a: Text, b: Text, c: Text)
    requires Less(a, b) && Less(b, c)
    ensures Less(a, c)
  {
    if a != [] && a[0] == b[0] && b[0] == c[0] { LessTransitive(a[1..], b[1..], c[1..]); }
  }

  // ----- sorting fields

  function Insert<T>(key: Text, value: T, fields: Fields<T>): Fields<T> {
    if fields.NoFields? || !Less(fields.key, key) then Field(key, value, fields)
    else Field(fields.key, fields.value, Insert(key, value, fields.rest))
  }
  function Sort<T>(fields: Fields<T>): Fields<T> {
    if fields.NoFields? then NoFields else Insert(fields.key, fields.value, Sort(fields.rest))
  }
  predicate Has<T>(fields: Fields<T>, key: Text) { fields.Field? && (fields.key == key || Has(fields.rest, key)) }
  function Get<T>(fields: Fields<T>, key: Text): T
    requires Has(fields, key)
  {
    if fields.key == key then fields.value else Get(fields.rest, key)
  }
  function Drop<T>(fields: Fields<T>, key: Text): Fields<T> {
    if fields.NoFields? then NoFields
    else if fields.key == key then fields.rest
    else Field(fields.key, fields.value, Drop(fields.rest, key))
  }
  predicate Distinct<T>(fields: Fields<T>) { fields.Field? ==> !Has(fields.rest, fields.key) && Distinct(fields.rest) }

  lemma {:induction false} InsertHas<T>(key: Text, value: T, fields: Fields<T>, k: Text)
    ensures Has(Insert(key, value, fields), k) <==> k == key || Has(fields, k)
  {
    if !(fields.NoFields? || !Less(fields.key, key)) { InsertHas(key, value, fields.rest, k); }
  }
  lemma {:induction false} SortHas<T>(fields: Fields<T>, k: Text)
    ensures Has(Sort(fields), k) <==> Has(fields, k)
  {
    if fields.Field? {
      SortHas(fields.rest, k);
      InsertHas(fields.key, fields.value, Sort(fields.rest), k);
    }
  }
  lemma {:induction false} InsertGet<T>(key: Text, value: T, fields: Fields<T>, k: Text)
    requires !Has(fields, key) && (k == key || Has(fields, k))
    ensures Has(Insert(key, value, fields), k) && Get(Insert(key, value, fields), k) == if k == key then value else Get(fields, k)
  {
    InsertHas(key, value, fields, k);
    if !(fields.NoFields? || !Less(fields.key, key)) && fields.key != k { InsertGet(key, value, fields.rest, k); }
  }
  lemma {:induction false} InsertDrop<T>(key: Text, value: T, fields: Fields<T>)
    requires !Has(fields, key)
    ensures Drop(Insert(key, value, fields), key) == fields
  {
    if !(fields.NoFields? || !Less(fields.key, key)) { InsertDrop(key, value, fields.rest); }
  }
  /** The order of insertion does not matter. */
  lemma {:induction false} InsertCommutes<T>(a: Text, x: T, b: Text, y: T, fields: Fields<T>)
    requires a != b
    ensures Insert(a, x, Insert(b, y, fields)) == Insert(b, y, Insert(a, x, fields))
  {
    LessTotal(a, b);
    if fields.Field? {
      LessTotal(fields.key, a);
      LessTotal(fields.key, b);
      if Less(fields.key, a) && Less(fields.key, b) {
        InsertCommutes(a, x, b, y, fields.rest);
      } else if Less(fields.key, a) && !Less(fields.key, b) {
        if Less(b, fields.key) { LessTransitive(b, fields.key, a); }
      } else if Less(fields.key, b) && !Less(fields.key, a) {
        if Less(a, fields.key) { LessTransitive(a, fields.key, b); }
      }
    }
  }
  lemma {:induction false} DropKeeps<T>(fields: Fields<T>, key: Text, k: Text)
    requires Distinct(fields)
    ensures Distinct(Drop(fields, key)) && (Has(Drop(fields, key), k) <==> k != key && Has(fields, k))
    ensures k != key && Has(fields, k) ==> Get(Drop(fields, key), k) == Get(fields, k)
  {
    if fields.Field? && fields.key != key {
      DropKeeps(fields.rest, key, k);
      DropKeeps(fields.rest, key, fields.key);
    }
  }
  /** Any field may be taken out first and inserted last. */
  lemma {:induction false} SortPulls<T>(fields: Fields<T>, key: Text)
    requires Distinct(fields) && Has(fields, key)
    ensures Sort(fields) == Insert(key, Get(fields, key), Sort(Drop(fields, key)))
  {
    if fields.key != key {
      SortPulls(fields.rest, key);
      InsertCommutes(fields.key, fields.value, key, Get(fields.rest, key), Sort(Drop(fields.rest, key)));
    }
  }

  // ----- values up to key order

  predicate WellFormed(v: Json) {
    match v
    case Number(t) => IsNumber(t)
    case Array(items) => AllWellFormed(items)
    case Object(fields) => Distinct(fields) && FieldsWellFormed(fields)
    case _ => true
  }
  predicate AllWellFormed(items: Items) { items.Item? ==> WellFormed(items.head) && AllWellFormed(items.tail) }
  predicate FieldsWellFormed(fields: Fields<Json>) {
    fields.Field? ==> WellFormed(fields.value) && FieldsWellFormed(fields.rest)
  }

  /** The value with all objects in key order. */
  function Normal(v: Json): Json {
    match v
    case Array(items) => Array(AllNormal(items))
    case Object(fields) => Object(Sort(FieldsNormal(fields)))
    case _ => v
  }
  function AllNormal(items: Items): Items {
    if items.NoItems? then NoItems else Item(Normal(items.head), AllNormal(items.tail))
  }
  function FieldsNormal(fields: Fields<Json>): Fields<Json> {
    if fields.NoFields? then NoFields else Field(fields.key, Normal(fields.value), FieldsNormal(fields.rest))
  }

  /** Equal up to the order of object keys. */
  predicate Same(v: Json, w: Json) {
    match v
    case Array(items) => w.Array? && AllSame(items, w.items)
    case Object(fields) => w.Object? && FieldsSame(fields, w.fields)
    case _ => v == w
  }
  predicate AllSame(a: Items, b: Items) {
    if a.NoItems? then b.NoItems? else b.Item? && Same(a.head, b.head) && AllSame(a.tail, b.tail)
  }
  predicate FieldsSame(a: Fields<Json>, b: Fields<Json>) {
    if a.NoFields? then b.NoFields?
    else Has(b, a.key) && Same(a.value, Get(b, a.key)) && FieldsSame(a.rest, Drop(b, a.key))
  }

  lemma {:induction false} NormalHas(fields: Fields<Json>, k: Text)
    ensures Has(FieldsNormal(fields), k) <==> Has(fields, k)
    ensures Has(fields, k) ==> Get(FieldsNormal(fields), k) == Normal(Get(fields, k))
  {
    if fields.Field? { NormalHas(fields.rest, k); }
  }
  lemma {:induction false} NormalDrop(fields: Fields<Json>, k: Text)
    ensures FieldsNormal(Drop(fields, k)) == Drop(FieldsNormal(fields), k)
  {
    if fields.Field? && fields.key != k { NormalDrop(fields.rest, k); }
  }
  lemma {:induction false} NormalDistinct(fields: Fields<Json>)
    requires Distinct(fields)
    ensures Distinct(FieldsNormal(fields))
  {
    if fields.Field? {
      NormalDistinct(fields.rest);
      NormalHas(fields.rest, fields.key);
    }
  }
  lemma {:induction false} PartsWellFormed(fields: Fields<Json>, k: Text)
    requires Distinct(fields) && FieldsWellFormed(fields)
    ensures Distinct(Drop(fields, k)) && FieldsWellFormed(Drop(fields, k))
    ensures Has(fields, k) ==> WellFormed(Get(fields, k))
  {
    DropKeeps(fields, k, k);
    if fields.Field? && fields.key != k { PartsWellFormed(fields.rest, k); }
  }

  /** Two values have the same normal form exactly if they are equal up to key order. */
  lemma {:induction false} NormalIffSame(v: Json, w: Json)
    requires WellFormed(v) && WellFormed(w)
    ensures Normal(v) == Normal(w) <==> Same(v, w)
  {
    match v
    case Array(items) => if w.Array? { AllNormalIffSame(items, w.items); }
    case Object(fields) => if w.Object? { FieldsNormalIffSame(fields, w.fields); }
    case _ =>
  }
  lemma {:induction false} AllNormalIffSame(a: Items, b: Items)
    requires AllWellFormed(a) && AllWellFormed(b)
    ensures AllNormal(a) == AllNormal(b) <==> AllSame(a, b)
  {
    if a.Item? && b.Item? {
      NormalIffSame(a.head, b.head);
      AllNormalIffSame(a.tail, b.tail);
    }
  }
  lemma {:induction false} FieldsNormalIffSame(a: Fields<Json>, b: Fields<Json>)
    requires Distinct(a) && FieldsWellFormed(a) && Distinct(b) && FieldsWellFormed(b)
    ensures Sort(FieldsNormal(a)) == Sort(FieldsNormal(b)) <==> FieldsSame(a, b)
  {
    if a.NoFields? {
      if b.Field? {
        SortHas(FieldsNormal(b), b.key);
        NormalHas(b, b.key);
      }
    } else {
      var k := a.key;
      var sa, sb := Sort(FieldsNormal(a)), Sort(FieldsNormal(b));
      var rest := Sort(FieldsNormal(a.rest));
      SortHas(FieldsNormal(a), k);
      NormalHas(a, k);
      SortHas(FieldsNormal(b), k);
      NormalHas(b, k);
      if Has(b, k) {
        var others := Drop(b, k);
        PartsWellFormed(b, k);
        NormalIffSame(a.value, Get(b, k));
        FieldsNormalIffSame(a.rest, others);
        NormalDistinct(b);
        SortPulls(FieldsNormal(b), k);
        NormalDrop(b, k);
        var tail := Sort(FieldsNormal(others));
        NormalHas(a.rest, k);
        SortHas(FieldsNormal(a.rest), k);
        DropKeeps(b, k, k);
        NormalHas(others, k);
        SortHas(FieldsNormal(others), k);
        InsertGet(k, Normal(a.value), rest, k);
        InsertGet(k, Normal(Get(b, k)), tail, k);
        InsertDrop(k, Normal(a.value), rest);
        InsertDrop(k, Normal(Get(b, k)), tail);
      }
    }
  }

  // ----- numbers as printed

  predicate NumberUnit(u: Unit) { 48 <= u <= 57 || u == 43 || u == 45 || u == 46 || u == 101 }
  predicate NumberStart(u: Unit) { 48 <= u <= 57 || u == 45 }
  /** Digits, sign, point and exponent, as a finite number prints. */
  predicate IsNumber(t: Text) { t != [] && NumberStart(t[0]) && AllNumber(t) }
  predicate AllNumber(t: Text) { t == [] || (NumberUnit(t[0]) && AllNumber(t[1..])) }

  // ----- strings as printed

  function HexDigit(d: int): Unit
    requires 0 <= d < 16
  {
    if d < 10 then 48 + d else 87 + d
  }
  function HexDigits(u: nat, n: nat): (t: Text)
    ensures |t| == n && forall x | x in t :: x < 0x80
  {
    if n == 0 then [] else HexDigits(u / 16, n - 1) + [HexDigit(u % 16)]
  }
  function Hex(u: Unit): (t: Text)
    ensures |t| == 4
  {
    HexDigits(u, 4)
  }
  /** The letter after the backslash of a short escape. */
  function Letter(u: Unit): Option<Unit> {
    if u == 34 || u == 92 then Some(u)
    else if u == 8 then Some(98)
    else if u == 9 then Some(116)
    else if u == 10 then Some(110)
    else if u == 12 then Some(102)
    else if u == 13 then Some(114)
    else None
  }
  function Escape(u: Unit): (t: Text)
    ensures |t| > 0
  {
    if Letter(u).Some? then [92, Letter(u).value]
    else if u < 32 || High(u) || Low(u) then [92, 117] + Hex(u)
    else [u]
  }
  /** Surrogate pairs stay as they are; a lone surrogate is escaped. */
  function Body(s: Text): Text {
    if s == [] then []
    else if |s| >= 2 && High(s[0]) && Low(s[1]) then [s[0], s[1]] + Body(s[2..])
    else Escape(s[0]) + Body(s[1..])
  }
  function Quote(s: Text): Text { [34] + Body(s) + [34] }

  // ----- printing

  function Print(v: Json): Text {
    match v
    case Null => [110, 117, 108, 108]
    case Bool(b) => if b then [116, 114, 117, 101] else [102, 97, 108, 115, 101]
    case Number(t) => t
    case String(s) => Quote(s)
    case Array(items) => [91] + Elements(items) + [93]
    case Object(fields) => [123] + Entries(Sort(PrintFields(fields))) + [125]
  }
  function Elements(items: Items): Text {
    if items.NoItems? then [] else if items.tail.NoItems? then Print(items.head) else Print(items.head) + [44] + Elements(items.tail)
  }
  function PrintFields(fields: Fields<Json>): Fields<Text> {
    if fields.NoFields? then NoFields else Field(fields.key, Print(fields.value), PrintFields(fields.rest))
  }
  function Entries(fields: Fields<Text>): Text {
    if fields.NoFields? then []
    else
      var entry := Quote(fields.key) + [58] + fields.value;
      if fields.rest.NoFields? then entry else entry + [44] + Entries(fields.rest)
  }

  /** The same, with the keys in the order in which they stand. */
  function Emit(v: Json): Text {
    match v
    case Array(items) => [91] + EmitAll(items) + [93]
    case Object(fields) => [123] + Entries(EmitFields(fields)) + [125]
    case _ => Print(v)
  }
  function EmitAll(items: Items): Text {
    if items.NoItems? then [] else if items.tail.NoItems? then Emit(items.head) else Emit(items.head) + [44] + EmitAll(items.tail)
  }
  function EmitFields(fields: Fields<Json>): Fields<Text> {
    if fields.NoFields? then NoFields else Field(fields.key, Emit(fields.value), EmitFields(fields.rest))
  }

  lemma {:induction false} InsertEmit(key: Text, v: Json, fields: Fields<Json>)
    ensures EmitFields(Insert(key, v, fields)) == Insert(key, Emit(v), EmitFields(fields))
  {
    if !(fields.NoFields? || !Less(fields.key, key)) { InsertEmit(key, v, fields.rest); }
  }
  lemma {:induction false} SortEmit(fields: Fields<Json>)
    ensures EmitFields(Sort(fields)) == Sort(EmitFields(fields))
  {
    if fields.Field? {
      SortEmit(fields.rest);
      InsertEmit(fields.key, fields.value, Sort(fields.rest));
    }
  }

  /** Printing with sorted keys is printing the normal form as it stands. */
  lemma {:induction false} PrintIsNormal(v: Json)
    ensures Print(v) == Emit(Normal(v))
  {
    match v
    case Array(items) => ElementsNormal(items);
    case Object(fields) =>
      FieldsPrintNormal(fields);
      SortEmit(FieldsNormal(fields));
    case _ =>
  }
  lemma {:induction false} ElementsNormal(items: Items)
    ensures Elements(items) == EmitAll(AllNormal(items))
  {
    if items.Item? {
      PrintIsNormal(items.head);
      ElementsNormal(items.tail);
    }
  }
  lemma {:induction false} FieldsPrintNormal(fields: Fields<Json>)
    ensures PrintFields(fields) == EmitFields(FieldsNormal(fields))
  {
    if fields.Field? {
      PrintIsNormal(fields.value);
      FieldsPrintNormal(fields.rest);
    }
  }

  // ----- reading strings

  function HexValue(u: Unit): (r: Option<int>)
    ensures r.Some? ==> 0 <= r.value < 16
  {
    if 48 <= u <= 57 then Some(u - 48) else if 97 <= u <= 102 then Some(u - 87) else if 65 <= u <= 70 then Some(u - 55) else None
  }
  function Unescape(c: Unit): Option<Unit> {
    if c == 34 || c == 92 || c == 47 then Some(c)
    else if c == 98 then Some(8)
    else if c == 116 then Some(9)
    else if c == 110 then Some(10)
    else if c == 102 then Some(12)
    else if c == 114 then Some(13)
    else None
  }
  datatype Read<+T> = Got(value: T, rest: Text) | Bad

  /** One code unit of a string, escaped or not. */
  function ReadUnit(t: Text): (r: Read<Unit>)
    ensures r.Got? ==> |r.rest| < |t|
  {
    if t == [] || t[0] == 34 || t[0] < 32 then Bad
    else if t[0] != 92 then Got(t[0], t[1..])
    else if |t| < 2 then Bad
    else if t[1] != 117 then (if Unescape(t[1]).Some? then Got(Unescape(t[1]).value, t[2..]) else Bad)
    else if |t| < 6 then Bad
    else
      var a, b, c, d := HexValue(t[2]), HexValue(t[3]), HexValue(t[4]), HexValue(t[5]);
      if a.None? || b.None? || c.None? || d.None? then Bad else Got(HexNumber(a.value, b.value, c.value, d.value), t[6..])
  }
  function HexNumber(a: int, b: int, c: int, d: int): (r: Unit)
    requires 0 <= a < 16 && 0 <= b < 16 && 0 <= c < 16 && 0 <= d < 16
  {
    a * 4096 + b * 256 + c * 16 + d
  }

  function ReadString(t: Text): (r: Read<Text>)
    ensures r.Got? ==> |r.rest| < |t|
    decreases |t|
  {
    if t != [] && t[0] == 34 then Got([], t[1..])
    else
      var one := ReadUnit(t);
      if one.Bad? then Bad
      else
        var more := ReadString(one.rest);
        if more.Bad? then Bad else Got([one.value] + more.value, more.rest)
  }

  lemma HexReads(u: Unit)
    ensures var h := Hex(u);
      && (forall i | 0 <= i < 4 :: HexValue(h[i]).Some?)
      && HexNumber(HexValue(h[0]).value, HexValue(h[1]).value, HexValue(h[2]).value, HexValue(h[3]).value) == u
  {
    var x := u / 16;
    var y := x / 16;
    var z := y / 16;
    assert HexDigits(z, 1) == HexDigits(z / 16, 0) + [HexDigit(z % 16)];
    assert HexDigits(y, 2) == HexDigits(z, 1) + [HexDigit(y % 16)];
    assert HexDigits(x, 3) == HexDigits(y, 2) + [HexDigit(x % 16)];
    assert Hex(u) == HexDigits(x, 3) + [HexDigit(u % 16)];
    DigitReads(z % 16);
    DigitReads(y % 16);
    DigitReads(x % 16);
    DigitReads(u % 16);
    assert z < 16 && u == x * 16 + u % 16 && x == y * 16 + x % 16 && y == z * 16 + y % 16;
  }
  lemma DigitReads(d: int)
    requires 0 <= d < 16
    ensures HexValue(HexDigit(d)) == Some(d)
  {}

  lemma EscapeReads(u: Unit, more: Text)
    ensures ReadUnit(Escape(u) + more) == Got(u, more)
  {
    var e := Escape(u);
    var t := e + more;
    assert t[|e|..] == more;
    if Letter(u).Some? {
      assert t[0] == 92 && t[1] == Letter(u).value;
    } else if u < 32 || High(u) || Low(u) {
      HexReads(u);
      assert t[0] == 92 && t[1] == 117 && t[2] == Hex(u)[0] && t[3] == Hex(u)[1] && t[4] == Hex(u)[2] && t[5] == Hex(u)[3];
    }
  }

  lemma RawReads(u: Unit, more: Text)
    requires u >= 32 && u != 34 && u != 92
    ensures ReadUnit([u] + more) == Got(u, more)
  {
    assert ([u] + more)[1..] == more;
  }
  lemma UnitThen(t: Text, u: Unit, more: Text, s: Text, rest: Text)
    requires ReadUnit(t) == Got(u, more) && ReadString(more) == Got(s, rest)
    ensures ReadString(t) == Got([u] + s, rest)
  {}
  /** A surrogate pair is printed as it is. */
  lemma PairReads(s: Text, more: Text, rest: Text)
    requires |s| >= 2 && High(s[0]) && Low(s[1]) && ReadString(more) == Got(s[2..], rest)
    ensures ReadString([s[0], s[1]] + more) == Got(s, rest)
  {
    RawReads(s[1], more);
    UnitThen([s[1]] + more, s[1], more, s[2..], rest);
    RawReads(s[0], [s[1]] + more);
    UnitThen([s[0]] + ([s[1]] + more), s[0], [s[1]] + more, [s[1]] + s[2..], rest);
    assert [s[0], s[1]] + more == [s[0]] + ([s[1]] + more);
    assert [s[0]] + ([s[1]] + s[2..]) == s;
  }
  lemma {:induction false} StringReads(s: Text, rest: Text)
    ensures ReadString(Body(s) + ([34] + rest)) == Got(s, rest)
    decreases |s|
  {
    var end := [34] + rest;
    if s == [] {
      assert Body(s) + end == end && end[1..] == rest;
    } else if |s| >= 2 && High(s[0]) && Low(s[1]) {
      StringReads(s[2..], rest);
      PairReads(s, Body(s[2..]) + end, rest);
      Regroup([s[0], s[1]], Body(s[2..]), end);
    } else {
      var more := Body(s[1..]) + end;
      StringReads(s[1..], rest);
      EscapeReads(s[0], more);
      UnitThen(Escape(s[0]) + more, s[0], more, s[1..], rest);
      Regroup(Escape(s[0]), Body(s[1..]), end);
      assert [s[0]] + s[1..] == s;
    }
  }

  // ----- reading values

  /** The longest run of number characters. */
  function ReadNumber(t: Text): (r: (Text, Text))
    ensures |r.0| + |r.1| == |t| && (t != [] && NumberUnit(t[0]) ==> |r.1| < |t|)
  {
    if t == [] || !NumberUnit(t[0]) then ([], t)
    else
      var more := ReadNumber(t[1..]);
      ([t[0]] + more.0, more.1)
  }

  predicate Begins(t: Text, word: Text) { |word| <= |t| && t[..|word|] == word }

  function ReadWord(t: Text): (r: Read<Json>)
    ensures r.Got? ==> |r.rest| < |t|
  {
    if Begins(t, [110, 117, 108, 108]) then Got(Null, t[4..])
    else if Begins(t, [116, 114, 117, 101]) then Got(Bool(true), t[4..])
    else if Begins(t, [102, 97, 108, 115, 101]) then Got(Bool(false), t[5..])
    else Bad
  }

  function ReadValue(t: Text): (r: Read<Json>)
    ensures r.Got? ==> |r.rest| < |t|
    decreases |t|, 0
  {
    if t == [] then Bad
    else if t[0] == 34 then
      var s := ReadString(t[1..]);
      if s.Bad? then Bad else Got(String(s.value), s.rest)
    else if t[0] == 91 then
      if |t| > 1 && t[1] == 93 then Got(Array(NoItems), t[2..])
      else
        var items := ReadItems(t[1..]);
        if items.Bad? then Bad else Got(Array(items.value), items.rest)
    else if t[0] == 123 then
      if |t| > 1 && t[1] == 125 then Got(Object(NoFields), t[2..])
      else
        var fields := ReadFields(t[1..]);
        if fields.Bad? then Bad else Got(Object(fields.value), fields.rest)
    else if NumberStart(t[0]) then
      var n := ReadNumber(t);
      Got(Number(n.0), n.1)
    else ReadWord(t)
  }
  function ReadItems(t: Text): (r: Read<Items>)
    ensures r.Got? ==> |r.rest| < |t|
    decreases |t|, 1
  {
    var v := ReadValue(t);
    if v.Bad? || v.rest == [] then Bad
    else if v.rest[0] == 93 then Got(Item(v.value, NoItems), v.rest[1..])
    else if v.rest[0] != 44 then Bad
    else
      var more := ReadItems(v.rest[1..]);
      if more.Bad? then Bad else Got(Item(v.value, more.value), more.rest)
  }
  function ReadFields(t: Text): (r: Read<Fields<Json>>)
    ensures r.Got? ==> |r.rest| < |t|
    decreases |t|, 1
  {
    if t == [] || t[0] != 34 then Bad
    else
      var key := ReadString(t[1..]);
      if key.Bad? || key.rest == [] || key.rest[0] != 58 then Bad
      else
        var v := ReadValue(key.rest[1..]);
        if v.Bad? || v.rest == [] then Bad
        else if v.rest[0] == 125 then Got(Field(key.value, v.value, NoFields), v.rest[1..])
        else if v.rest[0] != 44 then Bad
        else
          var more := ReadFields(v.rest[1..]);
          if more.Bad? then Bad else Got(Field(key.value, v.value, more.value), more.rest)
  }

  /** The value of a whole text. */
  function Parse(t: Text): Option<Json> {
    var r := ReadValue(t);
    if r.Got? && r.rest == [] then Some(r.value) else None
  }

  /** Nothing that could belong to a number follows. */
  predicate Stops(rest: Text) { rest == [] || !NumberUnit(rest[0]) }

  lemma {:induction false} NumberReads(t: Text, rest: Text)
    requires AllNumber(t) && Stops(rest)
    ensures ReadNumber(t + rest) == (t, rest)
  {
    if t == [] {
      assert t + rest == rest;
    } else {
      assert (t + rest)[1..] == t[1..] + rest;
      NumberReads(t[1..], rest);
      assert [t[0]] + t[1..] == t;
    }
  }
  lemma WordReads(word: Text, rest: Text)
    ensures Begins(word + rest, word) && (word + rest)[|word|..] == rest
  {
    assert (word + rest)[..|word|] == word;
  }
  lemma QuoteReads(s: Text, rest: Text)
    ensures (Quote(s) + rest)[0] == 34 && ReadString((Quote(s) + rest)[1..]) == Got(s, rest)
  {
    StringReads(s, rest);
    assert Quote(s) + rest == [34] + (Body(s) + ([34] + rest));
  }

  /** A value starts with none of the closing or separating characters. */
  lemma EmitStarts(v: Json)
    requires WellFormed(v)
    ensures Emit(v) != [] && Emit(v)[0] != 93 && Emit(v)[0] != 125
  {}

  lemma ArrayReads(inner: Text, items: Items, rest: Text)
    requires inner != [] && inner[0] != 93 && ReadItems(inner) == Got(items, rest)
    ensures ReadValue([91] + inner) == Got(Array(items), rest)
  {
    assert ([91] + inner)[1..] == inner;
  }
  lemma ObjectReads(inner: Text, fields: Fields<Json>, rest: Text)
    requires inner != [] && inner[0] != 125 && ReadFields(inner) == Got(fields, rest)
    ensures ReadValue([123] + inner) == Got(Object(fields), rest)
  {
    assert ([123] + inner)[1..] == inner;
  }
  lemma EmptyReads(rest: Text)
    ensures ReadValue([91] + ([93] + rest)) == Got(Array(NoItems), rest)
    ensures ReadValue([123] + ([125] + rest)) == Got(Object(NoFields), rest)
  {
    assert ([91] + ([93] + rest))[2..] == rest && ([123] + ([125] + rest))[2..] == rest;
  }
  lemma SimpleReads(v: Json, rest: Text)
    requires WellFormed(v) && Stops(rest) && !v.Array? && !v.Object?
    ensures ReadValue(Emit(v) + rest) == Got(v, rest)
  {
    match v
    case Null => WordReads([110, 117, 108, 108], rest);
    case Bool(b) => WordReads(if b then [116, 114, 117, 101] else [102, 97, 108, 115, 101], rest);
    case Number(t) =>
      NumberReads(t, rest);
      assert (t + rest)[0] == t[0];
    case String(s) => QuoteReads(s, rest);
  }
  lemma Bracketed(open: Unit, inner: Text, close: Unit, rest: Text)
    ensures ([open] + inner + [close]) + rest == [open] + (inner + ([close] + rest))
  {}
  lemma EmitAllStarts(items: Items, rest: Text)
    requires items.Item? && AllWellFormed(items)
    ensures EmitAll(items) != [] && (EmitAll(items) + rest)[0] != 93
  {
    EmitStarts(items.head);
  }
  lemma EntriesStart(fields: Fields<Text>, rest: Text)
    requires fields.Field?
    ensures Entries(fields) != [] && (Entries(fields) + rest)[0] == 34
  {}

  lemma {:induction false} EmitReads(v: Json, rest: Text)
    requires WellFormed(v) && Stops(rest)
    ensures ReadValue(Emit(v) + rest) == Got(v, rest)
  {
    if v.Array? {
      Bracketed(91, EmitAll(v.items), 93, rest);
      if v.items.NoItems? {
        EmptyReads(rest);
        assert [] + ([93] + rest) == [93] + rest;
      } else {
        ItemsRead(v.items, rest);
        EmitAllStarts(v.items, [93] + rest);
        ArrayReads(EmitAll(v.items) + ([93] + rest), v.items, rest);
      }
    } else if v.Object? {
      Bracketed(123, Entries(EmitFields(v.fields)), 125, rest);
      if v.fields.NoFields? {
        EmptyReads(rest);
        assert [] + ([125] + rest) == [125] + rest;
      } else {
        FieldsRead(v.fields, rest);
        EntriesStart(EmitFields(v.fields), [125] + rest);
        ObjectReads(Entries(EmitFields(v.fields)) + ([125] + rest), v.fields, rest);
      }
    } else {
      SimpleReads(v, rest);
    }
  }

  lemma LastItem(t: Text, v: Json, rest: Text)
    requires ReadValue(t) == Got(v, [93] + rest)
    ensures ReadItems(t) == Got(Item(v, NoItems), rest)
  {
    assert ([93] + rest)[1..] == rest;
  }
  lemma MoreItems(t: Text, v: Json, more: Text, items: Items, rest: Text)
    requires ReadValue(t) == Got(v, [44] + more) && ReadItems(more) == Got(items, rest)
    ensures ReadItems(t) == Got(Item(v, items), rest)
  {
    assert ([44] + more)[1..] == more;
  }
  lemma Continued(a: Text, b: Text, end: Text)
    ensures (a + [44] + b) + end == a + ([44] + (b + end))
  {}

  lemma {:induction false} ItemsRead(items: Items, rest: Text)
    requires items.Item? && AllWellFormed(items)
    ensures ReadItems(EmitAll(items) + ([93] + rest)) == Got(items, rest)
  {
    var end := [93] + rest;
    if items.tail.NoItems? {
      EmitReads(items.head, end);
      LastItem(Emit(items.head) + end, items.head, rest);
    } else {
      var more := EmitAll(items.tail) + end;
      EmitReads(items.head, [44] + more);
      ItemsRead(items.tail, rest);
      MoreItems(Emit(items.head) + ([44] + more), items.head, more, items.tail, rest);
      Continued(Emit(items.head), EmitAll(items.tail), end);
    }
  }

  lemma LastField(key: Text, u: Text, v: Json, rest: Text)
    requires ReadValue(u) == Got(v, [125] + rest)
    ensures ReadFields(Quote(key) + ([58] + u)) == Got(Field(key, v, NoFields), rest)
  {
    QuoteReads(key, [58] + u);
    assert ([58] + u)[1..] == u && ([125] + rest)[1..] == rest;
  }
  lemma MoreFields(key: Text, u: Text, v: Json, more: Text, fields: Fields<Json>, rest: Text)
    requires ReadValue(u) == Got(v, [44] + more) && ReadFields(more) == Got(fields, rest)
    ensures ReadFields(Quote(key) + ([58] + u)) == Got(Field(key, v, fields), rest)
  {
    QuoteReads(key, [58] + u);
    assert ([58] + u)[1..] == u && ([44] + more)[1..] == more;
  }
  lemma EntryThen(key: Text, value: Text, after: Text)
    ensures (key + [58] + value) + after == key + ([58] + (value + after))
  {}

  lemma {:induction false} FieldsRead(fields: Fields<Json>, rest: Text)
    requires fields.Field? && FieldsWellFormed(fields)
    ensures ReadFields(Entries(EmitFields(fields)) + ([125] + rest)) == Got(fields, rest)
  {
    var end := [125] + rest;
    var key, value := Quote(fields.key), Emit(fields.value);
    if fields.rest.NoFields? {
      EmitReads(fields.value, end);
      LastField(fields.key, value + end, fields.value, rest);
      EntryThen(key, value, end);
    } else {
      var more := Entries(EmitFields(fields.rest)) + end;
      EmitReads(fields.value, [44] + more);
      FieldsRead(fields.rest, rest);
      MoreFields(fields.key, value + ([44] + more), fields.value, more, fields.rest, rest);
      EntryThen(key, value, [44] + more);
      Continued(key + [58] + value, Entries(EmitFields(fields.rest)), end);
    }
  }

  lemma {:induction false} NormalWellFormed(v: Json)
    requires WellFormed(v)
    ensures WellFormed(Normal(v))
  {
    match v
    case Array(items) => AllNormalWellFormed(items);
    case Object(fields) =>
      FieldsNormalWellFormed(fields);
      NormalDistinct(fields);
      SortWellFormed(FieldsNormal(fields));
    case _ =>
  }
  lemma {:induction false} AllNormalWellFormed(items: Items)
    requires AllWellFormed(items)
    ensures AllWellFormed(AllNormal(items))
  {
    if items.Item? {
      NormalWellFormed(items.head);
      AllNormalWellFormed(items.tail);
    }
  }
  lemma {:induction false} FieldsNormalWellFormed(fields: Fields<Json>)
    requires FieldsWellFormed(fields)
    ensures FieldsWellFormed(FieldsNormal(fields))
  {
    if fields.Field? {
      NormalWellFormed(fields.value);
      FieldsNormalWellFormed(fields.rest);
    }
  }
  lemma {:induction false} SortWellFormed(fields: Fields<Json>)
    requires Distinct(fields) && FieldsWellFormed(fields)
    ensures Distinct(Sort(fields)) && FieldsWellFormed(Sort(fields))
  {
    if fields.Field? {
      SortWellFormed(fields.rest);
      SortHas(fields.rest, fields.key);
      InsertWellFormed(fields.key, fields.value, Sort(fields.rest));
    }
  }
  lemma {:induction false} InsertWellFormed(key: Text, v: Json, fields: Fields<Json>)
    requires Distinct(fields) && FieldsWellFormed(fields) && WellFormed(v) && !Has(fields, key)
    ensures Distinct(Insert(key, v, fields)) && FieldsWellFormed(Insert(key, v, fields))
  {
    if !(fields.NoFields? || !Less(fields.key, key)) {
      InsertWellFormed(key, v, fields.rest);
      InsertHas(key, v, fields.rest, fields.key);
    }
  }

  /** A parser recovers the value, with its keys in order. */
  lemma RoundTrip(v: Json)
    requires WellFormed(v)
    ensures Parse(Print(v)) == Some(Normal(v))
  {
    NormalWellFormed(v);
    EmitReads(Normal(v), []);
    PrintIsNormal(v);
    assert Emit(Normal(v)) + [] == Emit(Normal(v));
  }

  /** Two values print equally exactly if they are equal up to key order. */
  lemma PrintsEqualIffSame(v: Json, w: Json)
    requires WellFormed(v) && WellFormed(w)
    ensures Print(v) == Print(w) <==> Same(v, w)
  {
    RoundTrip(v);
    RoundTrip(w);
    PrintIsNormal(v);
    PrintIsNormal(w);
    NormalIffSame(v, w);
  }

  // ----- the text as bytes

  lemma EscapePaired(u: Unit)
    ensures Paired(Escape(u))
  {
    var e := Escape(u);
    if Letter(u).Some? || u < 32 || High(u) || Low(u) {
      AsciiPaired(e);
    } else {
      assert e[1..] == [];
    }
  }
  lemma {:induction false} BodyPaired(s: Text)
    ensures Paired(Body(s))
    decreases |s|
  {
    if s != [] {
      if |s| >= 2 && High(s[0]) && Low(s[1]) {
        BodyPaired(s[2..]);
        assert Body(s)[2..] == Body(s[2..]);
      } else {
        EscapePaired(s[0]);
        BodyPaired(s[1..]);
        PairedJoins(Escape(s[0]), Body(s[1..]));
      }
    }
  }
  lemma QuotePaired(s: Text)
    ensures Paired(Quote(s))
  {
    BodyPaired(s);
    AsciiPaired([34]);
    PairedJoins([34], Body(s));
    PairedJoins([34] + Body(s), [34]);
  }
  lemma {:induction false} NumberPaired(t: Text)
    requires AllNumber(t)
    ensures Paired(t)
  {
    if t != [] { NumberPaired(t[1..]); }
  }
  lemma Enclosed(open: Unit, inner: Text, close: Unit)
    requires open < 0x80 && close < 0x80 && Paired(inner)
    ensures Paired([open] + inner + [close])
  {
    AsciiPaired([open]);
    AsciiPaired([close]);
    PairedJoins([open], inner);
    PairedJoins([open] + inner, [close]);
  }
  lemma Separated(a: Text, mark: Unit, b: Text)
    requires Paired(a) && mark < 0x80 && Paired(b)
    ensures Paired(a + [mark] + b)
  {
    AsciiPaired([mark]);
    PairedJoins(a, [mark]);
    PairedJoins(a + [mark], b);
  }

  /** Whatever unpaired surrogates a value holds, its text has none, so its bytes lose nothing. */
  lemma {:induction false} EmitPaired(v: Json)
    requires WellFormed(v)
    ensures Paired(Emit(v))
  {
    match v
    case Null => AsciiPaired(Emit(v));
    case Bool(b) => AsciiPaired(Emit(v));
    case Number(t) => NumberPaired(t);
    case String(s) => QuotePaired(s);
    case Array(items) =>
      EmitAllPaired(items);
      Enclosed(91, EmitAll(items), 93);
    case Object(fields) =>
      EntriesPaired(fields);
      Enclosed(123, Entries(EmitFields(fields)), 125);
  }
  lemma {:induction false} EmitAllPaired(items: Items)
    requires AllWellFormed(items)
    ensures Paired(EmitAll(items))
  {
    if items.Item? {
      EmitPaired(items.head);
      EmitAllPaired(items.tail);
      Separated(Emit(items.head), 44, EmitAll(items.tail));
    }
  }
  lemma {:induction false} EntriesPaired(fields: Fields<Json>)
    requires FieldsWellFormed(fields)
    ensures Paired(Entries(EmitFields(fields)))
  {
    if fields.Field? {
      QuotePaired(fields.key);
      EmitPaired(fields.value);
      EntriesPaired(fields.rest);
      Separated(Quote(fields.key), 58, Emit(fields.value));
      Separated(Quote(fields.key) + [58] + Emit(fields.value), 44, Entries(EmitFields(fields.rest)));
    }
  }

  /** Two values are written as the same bytes exactly if they are equal up to key order. */
  lemma BytesEqualIffSame(v: Json, w: Json)
    requires WellFormed(v) && WellFormed(w)
    ensures Bytes(Print(v)) == Bytes(Print(w)) <==> Same(v, w)
  {
    NormalWellFormed(v);
    NormalWellFormed(w);
    PrintIsNormal(v);
    PrintIsNormal(w);
    EmitPaired(Normal(v));
    EmitPaired(Normal(w));
    BytesExact(Print(v), Print(w));
    PrintsEqualIffSame(v, w);
  }
}
