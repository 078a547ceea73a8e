/**
 * The record the exporter writes, seen as what it means: an ordered list of
 * key/value fields, each value a string or an unsigned integer, rendered as
 * one compact JSON object. Strings are written between quotes exactly as
 * they are (the exporter escapes nothing), numbers in decimal.
 *
 * Beside the renderer stands a reader of that compact form, so that what a
 * consumer gets back from a line can be stated: for fields whose keys and
 * string values need no escaping, reading the rendering returns the fields.
 */
module Json {
  import opened Wrappers
  import opened Numerals

  datatype Value = Str(s: string) | Num(n: nat)

  datatype Field = Field(key: string, value: Value)

  function Keys(fs: seq<Field>): (ks: seq<string>)
    ensures |ks| == |fs| && forall i :: 0 <= i < |fs| ==> ks[i] == fs[i].key
  {
    if fs == [] then [] else [fs[0].key] + Keys(fs[1..])
  }

  function ValueText(v: Value): string {
    match v
    case Str(s) => "\"" + s + "\""
    case Num(n) => Decimal(n)
  }

  /** A key in quotes and its colon: what precedes every value. */
  function KeyText(key: string): string {
    "\"" + key + "\":"
  }

  function MemberText(f: Field): string {
    "\"" + f.key + "\":" + ValueText(f.value)
  }

  lemma MemberOfKey(f: Field)
    ensures MemberText(f) == KeyText(f.key) + ValueText(f.value)
  {
  }

  /** The fields that pair each key with the value at the same position. */
  function FieldsOf(keys: seq<string>, values: seq<Value>): (fs: seq<Field>)
    requires |keys| == |values|
    ensures |fs| == |keys| && forall i :: 0 <= i < |fs| ==> fs[i] == Field(keys[i], values[i])
  {
    seq(|keys|, i requires 0 <= i < |keys| => Field(keys[i], values[i]))
  }

  /** Numbers as values. */
  function Numbers(ns: seq<nat>): (vs: seq<Value>)
    ensures |vs| == |ns| && forall i :: 0 <= i < |ns| ==> vs[i] == Num(ns[i])
  {
    seq(|ns|, i requires 0 <= i < |ns| => Num(ns[i]))
  }

  /** Members after the first, each preceded by its comma. */
  function TailText(fs: seq<Field>): string {
    if fs == [] then "" else "," + MemberText(fs[0]) + TailText(fs[1..])
  }

  function ObjectText(fs: seq<Field>): string {
    "{" + (if fs == [] then "" else MemberText(fs[0]) + TailText(fs[1..])) + "}"
  }

  /** Rendering the members after the first distributes over concatenation. */
  lemma {:induction false} TailTextAppend(a: seq<Field>, b: seq<Field>)
    ensures TailText(a + b) == TailText(a) + TailText(b)
    decreases |a|
  {
    if a == [] {
      assert a + b == b;
    } else {
      assert (a + b)[1..] == a[1..] + b;
      TailTextAppend(a[1..], b);
    }
  }

  lemma KeysAppend(a: seq<Field>, b: seq<Field>)
    ensures Keys(a + b) == Keys(a) + Keys(b)
  {
    var l, r := Keys(a + b), Keys(a) + Keys(b);
    forall i | 0 <= i < |l| ensures l[i] == r[i] {
      if i >= |a| {
        assert (a + b)[i] == b[i - |a|];
      }
    }
  }

  lemma KeysOfFields(keys: seq<string>, values: seq<Value>)
    requires |keys| == |values|
    ensures Keys(FieldsOf(keys, values)) == keys
  {
  }

  /** The text of each member, in order. */
  function MemberTexts(fs: seq<Field>): (ms: seq<string>)
    ensures |ms| == |fs| && forall i :: 0 <= i < |fs| ==> ms[i] == MemberText(fs[i])
  {
    seq(|fs|, i requires 0 <= i < |fs| => MemberText(fs[i]))
  }

  /** Strings each preceded by a comma. */
  function CommaEach(ms: seq<string>): string {
    if ms == [] then "" else "," + ms[0] + CommaEach(ms[1..])
  }

  /** The first `n` strings each preceded by a comma, built from the left as a
      writer that prints them one after another produces them. */
  function CommaPrefix(ms: seq<string>, n: nat): string
    requires n <= |ms|
  {
    if n == 0 then "" else CommaPrefix(ms, n - 1) + "," + ms[n - 1]
  }

  lemma {:induction false} TailTextIsCommaEach(fs: seq<Field>)
    ensures TailText(fs) == CommaEach(MemberTexts(fs))
    decreases |fs|
  {
    if fs != [] {
      var ms := MemberTexts(fs);
      assert ms[1..] == MemberTexts(fs[1..]);
      TailTextIsCommaEach(fs[1..]);
    }
  }

  lemma {:induction false} CommaEachSplit(ms: seq<string>, n: nat)
    requires n <= |ms|
    ensures CommaEach(ms) == CommaPrefix(ms, n) + CommaEach(ms[n..])
    decreases n
  {
    if n == 0 {
      assert ms[0..] == ms;
    } else {
      CommaEachSplit(ms, n - 1);
      assert ms[n - 1..][1..] == ms[n..];
    }
  }

  /** Rendering a tail member by member, from the left, gives the tail. */
  lemma TailTextFromLeft(fs: seq<Field>)
    ensures TailText(fs) == CommaPrefix(MemberTexts(fs), |fs|)
  {
    var ms := MemberTexts(fs);
    TailTextIsCommaEach(fs);
    CommaEachSplit(ms, |ms|);
    assert ms[|ms|..] == [];
  }

  /** Appending a member and its trailing comma to text that ends in a comma. */
  lemma CommaGrow(start: string, p: string, m: string, c: string)
    requires m + "," == c
    ensures (start + (p + ",")) + c == start + (((p + ",") + m) + ",")
  {
    assert (p + ",") + (m + ",") == ((p + ",") + m) + ",";
  }

  /** Appending the last member, which has no comma after it. */
  lemma CommaFinish(start: string, p: string, m: string)
    ensures (start + (p + ",")) + m == start + ((p + ",") + m)
  {
  }

  /** Two pieces, the first a member between commas and the second the last
      member, make up the comma-led list of two members. */
  lemma CommaChunks2(ms: seq<string>, start: string, c0: string, c1: string)
    requires |ms| == 2 && "," + ms[0] + "," == c0 && ms[1] == c1
    ensures start + CommaPrefix(ms, 2) == start + c0 + c1
  {
    assert start + c0 == start + (CommaPrefix(ms, 1) + ",");
    CommaFinish(start, CommaPrefix(ms, 1), ms[1]);
  }

  /** Three pieces: the first member between commas, the second followed by
      one, the last alone. */
  lemma CommaChunks3(ms: seq<string>, start: string, c0: string, c1: string, c2: string)
    requires |ms| == 3 && "," + ms[0] + "," == c0 && ms[1] + "," == c1 && ms[2] == c2
    ensures start + CommaPrefix(ms, 3) == start + c0 + c1 + c2
  {
    assert start + c0 == start + (CommaPrefix(ms, 1) + ",");
    CommaGrow(start, CommaPrefix(ms, 1), ms[1], c1);
    CommaFinish(start, CommaPrefix(ms, 2), ms[2]);
  }

  /** Sixteen pieces, the first opening with a comma and all but the last
      closing with one, make up the comma-led list of sixteen members. */
  lemma CommaChunks16(
    ms: seq<string>, start: string,
    c0: string,
    c1: string,
    c2: string,
    c3: string,
    c4: string,
    c5: string,
    c6: string,
    c7: string,
    c8: string,
    c9: string,
    c10: string,
    c11: string,
    c12: string,
    c13: string,
    c14: string,
    c15: string)
    requires |ms| == 16
    requires "," + ms[0] + "," == c0
    requires ms[1] + "," == c1
    requires ms[2] + "," == c2
    requires ms[3] + "," == c3
    requires ms[4] + "," == c4
    requires ms[5] + "," == c5
    requires ms[6] + "," == c6
    requires ms[7] + "," == c7
    requires ms[8] + "," == c8
    requires ms[9] + "," == c9
    requires ms[10] + "," == c10
    requires ms[11] + "," == c11
    requires ms[12] + "," == c12
    requires ms[13] + "," == c13
    requires ms[14] + "," == c14
    requires ms[15] == c15
    ensures start + CommaPrefix(ms, 16) == start + c0 + c1 + c2 + c3 + c4 + c5 + c6 + c7 + c8 + c9 + c10 + c11 + c12 + c13 + c14 + c15
  {
    assert start + c0 == start + (CommaPrefix(ms, 1) + ",");
    CommaGrow(start, CommaPrefix(ms, 1), ms[1], c1);
    CommaGrow(start, CommaPrefix(ms, 2), ms[2], c2);
    CommaGrow(start, CommaPrefix(ms, 3), ms[3], c3);
    CommaGrow(start, CommaPrefix(ms, 4), ms[4], c4);
    CommaGrow(start, CommaPrefix(ms, 5), ms[5], c5);
    CommaGrow(start, CommaPrefix(ms, 6), ms[6], c6);
    CommaGrow(start, CommaPrefix(ms, 7), ms[7], c7);
    CommaGrow(start, CommaPrefix(ms, 8), ms[8], c8);
    CommaGrow(start, CommaPrefix(ms, 9), ms[9], c9);
    CommaGrow(start, CommaPrefix(ms, 10), ms[10], c10);
    CommaGrow(start, CommaPrefix(ms, 11), ms[11], c11);
    CommaGrow(start, CommaPrefix(ms, 12), ms[12], c12);
    CommaGrow(start, CommaPrefix(ms, 13), ms[13], c13);
    CommaGrow(start, CommaPrefix(ms, 14), ms[14], c14);
    CommaFinish(start, CommaPrefix(ms, 15), ms[15]);
  }

  /** An object whose first two members are given: the second one and the rest form the tail. */
  lemma ObjectOfTwo(a: Field, b: Field, rest: seq<Field>)
    ensures ObjectText([a, b] + rest) == "{" + (MemberText(a) + ("," + MemberText(b) + TailText(rest))) + "}"
  {
    var fs := [a, b] + rest;
    assert fs[1..] == [b] + rest;
    TailTextAppend([b], rest);
    assert TailText([b]) == "," + MemberText(b);
  }

  // ----- Characters that may stand in a JSON string without an escape -----

  /** Neither a quote, a backslash nor a control character. */
  predicate IsPlainChar(c: char) {
    c != '"' && c != '\\' && c >= ' '
  }

  predicate IsPlainString(s: string) {
    forall i :: 0 <= i < |s| ==> IsPlainChar(s[i])
  }

  predicate IsPlainValue(v: Value) {
    v.Str? ==> IsPlainString(v.s)
  }

  /** Every key and every string value can be written without escapes. */
  predicate IsPlain(fs: seq<Field>) {
    forall i :: 0 <= i < |fs| ==> IsPlainString(fs[i].key) && IsPlainValue(fs[i].value)
  }

  /** Every value of a list can be written without escapes. */
  predicate PlainValues(vs: seq<Value>) {
    forall i :: 0 <= i < |vs| ==> IsPlainValue(vs[i])
  }

  lemma PlainValuesAppend(a: seq<Value>, b: seq<Value>)
    requires PlainValues(a) && PlainValues(b)
    ensures PlainValues(a + b)
  {
    forall i | |a| <= i < |a + b| ensures IsPlainValue((a + b)[i]) {
      assert (a + b)[i] == b[i - |a|];
    }
  }

  lemma NumbersPlain(ns: seq<nat>)
    ensures PlainValues(Numbers(ns)) && OneLineValues(Numbers(ns))
  {
  }

  /** Fields built from plain keys and plain values are plain. */
  lemma FieldsOfPlain(keys: seq<string>, vs: seq<Value>)
    requires |keys| == |vs| && PlainValues(vs)
    requires forall i :: 0 <= i < |keys| ==> IsPlainString(keys[i])
    ensures IsPlain(FieldsOf(keys, vs))
  {
  }

  lemma IsPlainAppend(a: seq<Field>, b: seq<Field>)
    requires IsPlain(a) && IsPlain(b)
    ensures IsPlain(a + b)
  {
    forall i | |a| <= i < |a + b| ensures IsPlainString((a + b)[i].key) && IsPlainValue((a + b)[i].value) {
      assert (a + b)[i] == b[i - |a|];
    }
  }

  // ----- A reader of the compact form -----

  /** Reads plain characters up to a closing quote; returns them and what follows the quote. */
  function ParseStringBody(s: string): (r: Option<(string, string)>)
    ensures r.Some? ==> |r.value.1| < |s|
  {
    if s == [] then None
    else if s[0] == '"' then Some(([], s[1..]))
    else if !IsPlainChar(s[0]) then None
    else match ParseStringBody(s[1..])
      case None => None
      case Some((body, rest)) => Some(([s[0]] + body, rest))
  }

  /** The length of the run of decimal digits that starts `s`. */
  function DigitRun(s: string): (k: nat)
    ensures k <= |s|
    ensures AllDigitsOf(s[..k], 10)
  {
    if s != [] && IsDecimalDigit(s[0]) then
      var k := 1 + DigitRun(s[1..]);
      assert s[..k] == [s[0]] + s[1..][..k - 1];
      k
    else 0
  }

  /** A quoted string, or a JSON number without sign, fraction or leading zero. */
  function ParseValue(s: string): (r: Option<(Value, string)>)
    ensures r.Some? ==> |r.value.1| < |s|
  {
    if s != [] && s[0] == '"' then
      match ParseStringBody(s[1..])
      case None => None
      case Some((body, rest)) => Some((Str(body), rest))
    else
      var k := DigitRun(s);
      if k == 0 || (k > 1 && s[0] == '0') then None
      else Some((Num(ValueOf(s[..k], 10)), s[k..]))
  }

  function ParseMember(s: string): (r: Option<(Field, string)>)
    ensures r.Some? ==> |r.value.1| < |s|
  {
    if s == [] || s[0] != '"' then None
    else match ParseStringBody(s[1..])
      case None => None
      case Some((key, rest)) =>
        if rest == [] || rest[0] != ':' then None
        else match ParseValue(rest[1..])
          case None => None
          case Some((v, rest')) => Some((Field(key, v), rest'))
  }

  /** Reads `,member` as long as a comma follows. */
  function ParseTail(s: string): Option<(seq<Field>, string)>
    decreases |s|
  {
    if s == [] || s[0] != ',' then Some(([], s))
    else match ParseMember(s[1..])
      case None => None
      case Some((f, rest)) =>
        match ParseTail(rest)
        case None => None
        case Some((fs, rest')) => Some(([f] + fs, rest'))
  }

  function ParseObject(s: string): Option<seq<Field>> {
    if s == [] || s[0] != '{' then None
    else if s[1..] == "}" then Some([])
    else match ParseMember(s[1..])
      case None => None
      case Some((f, rest)) =>
        match ParseTail(rest)
        case None => None
        case Some((fs, rest')) => if rest' == "}" then Some([f] + fs) else None
  }

  // ----- Reading back what was rendered -----

  /** What may follow a value: nothing, or a character that cannot continue a number. */
  predicate EndsValue(rest: string) {
    rest == [] || !IsDecimalDigit(rest[0])
  }

  /** What may follow the members: nothing, or a character other than a comma or digit. */
  predicate EndsMembers(rest: string) {
    EndsValue(rest) && (rest == [] || rest[0] != ',')
  }

  lemma {:induction false} StringBodyRoundTrip(body: string, rest: string)
    requires IsPlainString(body)
    ensures ParseStringBody(body + "\"" + rest) == Some((body, rest))
    decreases |body|
  {
    var s := body + "\"" + rest;
    if body == [] {
      assert s == "\"" + rest;
    } else {
      assert s[0] == body[0];
      assert s[1..] == body[1..] + "\"" + rest;
      StringBodyRoundTrip(body[1..], rest);
      assert [body[0]] + body[1..] == body;
    }
  }

  lemma {:induction false} DigitRunOf(d: string, rest: string)
    requires AllDigitsOf(d, 10) && EndsValue(rest)
    ensures DigitRun(d + rest) == |d|
    decreases |d|
  {
    if d == [] {
      assert d + rest == rest;
    } else {
      assert IsDigitOf(d[0], 10);
      assert (d + rest)[1..] == d[1..] + rest;
      DigitRunOf(d[1..], rest);
    }
  }

  lemma ValueRoundTrip(v: Value, rest: string)
    requires IsPlainValue(v) && EndsValue(rest)
    ensures ParseValue(ValueText(v) + rest) == Some((v, rest))
  {
    match v
    case Str(body) =>
      assert ValueText(v) + rest == "\"" + (body + "\"" + rest);
      StringBodyRoundTrip(body, rest);
    case Num(n) =>
      var d := Decimal(n);
      var s := d + rest;
      DigitRunOf(d, rest);
      assert s[..|d|] == d;
      assert s[|d|..] == rest;
      NumeralValue(n, 10);
      assert s[0] == '0' ==> |d| == 1;
  }

  lemma MemberRoundTrip(f: Field, rest: string)
    requires IsPlainString(f.key) && IsPlainValue(f.value) && EndsValue(rest)
    ensures ParseMember(MemberText(f) + rest) == Some((f, rest))
  {
    var s := MemberText(f) + rest;
    var after := ":" + ValueText(f.value) + rest;
    assert s[1..] == f.key + "\"" + after;
    StringBodyRoundTrip(f.key, after);
    assert after[1..] == ValueText(f.value) + rest;
    ValueRoundTrip(f.value, rest);
  }

  lemma PlainTail(fs: seq<Field>)
    requires IsPlain(fs) && fs != []
    ensures IsPlain(fs[1..]) && IsPlainString(fs[0].key) && IsPlainValue(fs[0].value)
  {
    forall i | 0 <= i < |fs[1..]| ensures IsPlainString(fs[1..][i].key) && IsPlainValue(fs[1..][i].value) {
      assert fs[1..][i] == fs[i + 1];
    }
  }

  /** The text after a member of a tail: a comma or what follows the tail. */
  lemma TailStart(fs: seq<Field>, rest: string)
    requires EndsMembers(rest)
    ensures EndsValue(TailText(fs) + rest)
  {
    if fs != [] {
      assert (TailText(fs) + rest)[0] == ',';
    }
  }

  lemma DropFirst(c: string, x: string)
    requires |c| == 1
    ensures (c + x)[1..] == x
  {
  }

  lemma {:induction false} TailRoundTrip(fs: seq<Field>, rest: string)
    requires IsPlain(fs) && EndsMembers(rest)
    ensures ParseTail(TailText(fs) + rest) == Some((fs, rest))
    decreases |fs|
  {
    if fs == [] {
      assert TailText(fs) + rest == rest;
    } else {
      PlainTail(fs);
      TailRoundTrip(fs[1..], rest);
      TailStepParse(fs, rest);
    }
  }

  /** One more member in front of a tail that reads back. */
  lemma TailStepParse(fs: seq<Field>, rest: string)
    requires fs != [] && IsPlain(fs[1..]) && IsPlainString(fs[0].key) && IsPlainValue(fs[0].value)
    requires EndsMembers(rest)
    requires ParseTail(TailText(fs[1..]) + rest) == Some((fs[1..], rest))
    ensures ParseTail(TailText(fs) + rest) == Some((fs, rest))
  {
    var m, t := MemberText(fs[0]), TailText(fs[1..]);
    var x := m + (t + rest);
    assert ParseMember(x) == Some((fs[0], t + rest)) by {
      TailStart(fs[1..], rest);
      MemberRoundTrip(fs[0], t + rest);
    }
    assert ParseTail("," + x) == Some((fs, rest)) by {
      ParseTailStep(x, t + rest, fs[0], fs[1..], rest);
      assert [fs[0]] + fs[1..] == fs;
    }
    assert TailText(fs) + rest == "," + x by {
      RegroupFour(",", m, t, rest);
    }
  }

  /** Reading a comma, a member and a tail. */
  lemma ParseTailStep(x: string, y: string, f: Field, fs: seq<Field>, rest: string)
    requires ParseMember(x) == Some((f, y))
    requires ParseTail(y) == Some((fs, rest))
    ensures ParseTail("," + x) == Some(([f] + fs, rest))
  {
    DropFirst(",", x);
  }

  lemma RegroupFour(a: string, b: string, c: string, d: string)
    ensures a + b + c + d == a + (b + (c + d))
  {
  }

  /** Reading a rendered object whose strings need no escapes gives back its fields, in order. */
  lemma ObjectRoundTrip(fs: seq<Field>)
    requires IsPlain(fs)
    ensures ParseObject(ObjectText(fs)) == Some(fs)
  {
    if fs == [] {
      assert ObjectText(fs)[1..] == "}";
    } else {
      var m, tail := MemberText(fs[0]), TailText(fs[1..]) + "}";
      PlainTail(fs);
      assert ParseMember(m + tail) == Some((fs[0], tail)) by {
        TailStart(fs[1..], "}");
        MemberRoundTrip(fs[0], tail);
      }
      assert ParseObject("{" + (m + tail)) == Some(fs) by {
        TailRoundTrip(fs[1..], "}");
        assert (m + tail)[0] == '"';
        ObjectStep(m + tail, tail, fs[0], fs[1..]);
        assert [fs[0]] + fs[1..] == fs;
      }
      assert ObjectText(fs) == "{" + (m + tail);
    }
  }

  /** Reading an opening brace, a member and a tail that ends the object. */
  lemma ObjectStep(x: string, y: string, f: Field, fs: seq<Field>)
    requires |x| > 0 && x[0] == '"'
    requires ParseMember(x) == Some((f, y))
    requires ParseTail(y) == Some((fs, "}"))
    ensures ParseObject("{" + x) == Some([f] + fs)
  {
    DropFirst("{", x);
    assert x != "}";
  }

  // ----- Line structure -----

  predicate NoNewline(s: string) {
    forall i :: 0 <= i < |s| ==> s[i] != '\n'
  }

  /** No key and no string value holds a newline. */
  predicate NoNewlines(fs: seq<Field>) {
    forall i :: 0 <= i < |fs| ==> NoNewline(fs[i].key) && (fs[i].value.Str? ==> NoNewline(fs[i].value.s))
  }

  /** No string value of a list holds a newline. */
  predicate OneLineValues(vs: seq<Value>) {
    forall i :: 0 <= i < |vs| ==> vs[i].Str? ==> NoNewline(vs[i].s)
  }

  lemma OneLineValuesAppend(a: seq<Value>, b: seq<Value>)
    requires OneLineValues(a) && OneLineValues(b)
    ensures OneLineValues(a + b)
  {
    forall i | |a| <= i < |a + b| ensures (a + b)[i].Str? ==> NoNewline((a + b)[i].s) {
      assert (a + b)[i] == b[i - |a|];
    }
  }

  /** Fields built from keys and values without newlines hold none. */
  lemma FieldsOfOneLine(keys: seq<string>, vs: seq<Value>)
    requires |keys| == |vs| && OneLineValues(vs)
    requires forall i :: 0 <= i < |keys| ==> NoNewline(keys[i])
    ensures NoNewlines(FieldsOf(keys, vs))
  {
  }

  /** A plain string holds no control character, a newline least of all. */
  lemma PlainNoNewline(s: string)
    requires IsPlainString(s)
    ensures NoNewline(s)
  {
  }

  lemma NoNewlinesAppend(a: seq<Field>, b: seq<Field>)
    requires NoNewlines(a) && NoNewlines(b)
    ensures NoNewlines(a + b)
  {
    forall i | |a| <= i < |a + b|
      ensures NoNewline((a + b)[i].key) && ((a + b)[i].value.Str? ==> NoNewline((a + b)[i].value.s))
    {
      assert (a + b)[i] == b[i - |a|];
    }
  }

  lemma MemberNoNewline(f: Field)
    requires NoNewline(f.key) && (f.value.Str? ==> NoNewline(f.value.s))
    ensures NoNewline(MemberText(f))
  {
    var s := MemberText(f);
    forall i | 0 <= i < |s| ensures s[i] != '\n' {
      if f.value.Num? {
        var d := Decimal(f.value.n);
        assert s == "\"" + f.key + "\":" + d;
        if i >= |s| - |d| {
          assert s[i] == d[i - (|s| - |d|)];
          assert IsDigitOf(d[i - (|s| - |d|)], 10);
        }
      }
    }
  }

  lemma {:induction false} TailNoNewline(fs: seq<Field>)
    requires NoNewlines(fs)
    ensures NoNewline(TailText(fs))
    decreases |fs|
  {
    if fs != [] {
      assert NoNewlines(fs[1..]) by {
        forall i | 0 <= i < |fs[1..]|
          ensures NoNewline(fs[1..][i].key) && (fs[1..][i].value.Str? ==> NoNewline(fs[1..][i].value.s))
        {
          assert fs[1..][i] == fs[i + 1];
        }
      }
      MemberNoNewline(fs[0]);
      TailNoNewline(fs[1..]);
    }
  }

  lemma NoNewlineJoin(a: string, b: string)
    requires NoNewline(a) && NoNewline(b)
    ensures NoNewline(a + b)
  {
    forall i | |a| <= i < |a + b| ensures (a + b)[i] != '\n' {
      assert (a + b)[i] == b[i - |a|];
    }
  }

  /** An object whose strings hold no newline renders on one line. */
  lemma ObjectNoNewline(fs: seq<Field>)
    requires NoNewlines(fs)
    ensures NoNewline(ObjectText(fs))
  {
    if fs == [] {
      assert ObjectText(fs) == "{}";
    } else {
      var m, t := MemberText(fs[0]), TailText(fs[1..]);
      TailNoNewline(fs);
      assert NoNewline(m + t) by {
        forall i | 0 <= i < |m + t| ensures (m + t)[i] != '\n' {
          assert (m + t)[i] == ("," + m + t)[i + 1];
        }
      }
      NoNewlineJoin("{", m + t);
      NoNewlineJoin("{" + (m + t), "}");
    }
  }

  /** The last member is followed directly by the closing brace: no trailing comma. */
  lemma NoTrailingComma(fs: seq<Field>)
    ensures var s := ObjectText(fs);
      |s| >= 2 && s[0] == '{' && s[|s| - 1] == '}' && s[|s| - 2] != ','
  {
    var s := ObjectText(fs);
    if fs != [] {
      var m, t := MemberText(fs[0]), TailText(fs[1..]);
      assert s == "{" + m + t + "}";
      MemberEnds(fs[0]);
      if fs[1..] != [] {
        TailEnds(fs[1..]);
        assert s[|s| - 2] == t[|t| - 1];
      } else {
        assert s[|s| - 2] == m[|m| - 1];
      }
    }
  }

  lemma MemberEnds(f: Field)
    ensures var m := MemberText(f); |m| > 0 && EndsLikeValue(m[|m| - 1])
  {
    ValueTextEnds(f.value);
    var t := ValueText(f.value);
    var m := MemberText(f);
    assert m[|m| - 1] == t[|t| - 1];
  }

  /** A non-empty tail ends with its last value's final character. */
  lemma {:induction false} TailEnds(fs: seq<Field>)
    requires fs != []
    ensures var t := TailText(fs); |t| > 0 && EndsLikeValue(t[|t| - 1])
    decreases |fs|
  {
    var m, r := MemberText(fs[0]), TailText(fs[1..]);
    var t := TailText(fs);
    assert t == "," + m + r;
    MemberEnds(fs[0]);
    if fs[1..] != [] {
      TailEnds(fs[1..]);
      assert t[|t| - 1] == r[|r| - 1];
    } else {
      assert t[|t| - 1] == m[|m| - 1];
    }
  }

  predicate EndsLikeValue(c: char) {
    c == '"' || IsDecimalDigit(c)
  }

  /** A value's text ends with a closing quote or a digit. */
  lemma ValueTextEnds(v: Value)
    ensures var t := ValueText(v); |t| > 0 && EndsLikeValue(t[|t| - 1])
  {
    if v.Num? {
      var d := Decimal(v.n);
      assert IsDigitOf(d[|d| - 1], 10);
    }
  }
}
