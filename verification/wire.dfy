/** The SSH wire primitives of RFC 4251 section 5 that the packet encodings are
    built from: `uint32`, `boolean`, `string` (as text or as binary data),
    `name-list`, and the fixed 16-byte KEXINIT cookie. A message body is a
    sequence of `Field`s written one after the other. */
module Wire {
  import opened Common

  datatype Field =
    | FU32(u: U32)
    | FBool(flag: bool)
    | FText(text: string)
    | FBin(bin: seq<Byte>)
    | FNames(names: seq<string>)
    | FCookie(cookie: seq<Byte>)

  datatype Kind = KU32 | KBool | KText | KBin | KNames | KCookie

  function KindOf(f: Field): Kind
  {
    match f
    case FU32(_) => KU32
    case FBool(_) => KBool
    case FText(_) => KText
    case FBin(_) => KBin
    case FNames(_) => KNames
    case FCookie(_) => KCookie
  }

  predicate HasKind(f: Field, k: Kind)
  {
    match k
    case KU32 => f.FU32?
    case KBool => f.FBool?
    case KText => f.FText?
    case KBin => f.FBin?
    case KNames => f.FNames?
    case KCookie => f.FCookie?
  }

  predicate KindsMatch(fs: seq<Field>, ks: seq<Kind>)
  {
    |fs| == |ks| && forall i :: 0 <= i < |fs| ==> HasKind(fs[i], ks[i])
  }

  const COOKIE_LEN: nat := 16

  // ---- text: every character of a wire string is one byte ----

  predicate IsByteText(t: string)
  {
    forall i :: 0 <= i < |t| ==> t[i] as int < 0x100
  }

  function TextBytes(t: string): (b: seq<Byte>)
    requires IsByteText(t)
    ensures |b| == |t| && forall i :: 0 <= i < |t| ==> b[i] == t[i] as int
  {
    seq(|t|, i requires 0 <= i < |t| => t[i] as int)
  }

  function BytesText(b: seq<Byte>): (t: string)
    ensures |t| == |b| && forall i :: 0 <= i < |b| ==> t[i] as int == b[i]
  {
    seq(|b|, i requires 0 <= i < |b| => b[i] as char)
  }

  // ---- name-lists: names joined by commas ----

  const COMMA: char := ','

  /** A name that can stand in a name-list: non-empty, byte text, no comma. */
  predicate ValidName(n: string)
  {
    |n| > 0 && IsByteText(n) && COMMA !in n
  }

  function Join(names: seq<string>): string
  {
    if |names| == 0 then ""
    else if |names| == 1 then names[0]
    else names[0] + [COMMA] + Join(names[1..])
  }

  /** Index of the first comma, or |t| when there is none. */
  function FirstComma(t: string): (i: nat)
    ensures i <= |t|
    ensures forall j :: 0 <= j < i ==> t[j] != COMMA
    ensures i < |t| ==> t[i] == COMMA
  {
    if |t| == 0 then 0
    else if t[0] == COMMA then 0
    else 1 + FirstComma(t[1..])
  }

  /** The comma-separated parts of a non-empty list text. */
  function SplitParts(t: string): (parts: seq<string>)
    ensures |parts| > 0
    decreases |t|
  {
    var i := FirstComma(t);
    if i == |t| then [t] else [t[..i]] + SplitParts(t[i + 1..])
  }

  /** Parses a name-list; the empty string is the empty list. */
  function Split(t: string): seq<string>
  {
    if t == "" then [] else SplitParts(t)
  }

  lemma FirstCommaOfName(n: string, tail: string)
    requires COMMA !in n
    requires tail == [] || tail[0] == COMMA
    ensures FirstComma(n + tail) == |n|
  {
    var t := n + tail;
    forall j | 0 <= j < |n| ensures t[j] != COMMA {
      assert t[j] == n[j] && n[j] in n;
    }
    if tail != [] {
      assert t[|n|] == COMMA;
    }
  }

  lemma {:induction false} SplitJoin(names: seq<string>)
    requires forall k :: 0 <= k < |names| ==> ValidName(names[k])
    ensures Split(Join(names)) == names
  {
    if |names| == 0 {
    } else {
      SplitPartsJoin(names);
      assert Join(names) != "" by {
        JoinStartsWith(names);
      }
    }
  }

  lemma {:induction false} JoinStartsWith(names: seq<string>)
    requires |names| > 0
    ensures |Join(names)| >= |names[0]| && Join(names)[..|names[0]|] == names[0]
  {
    if |names| > 1 {
      assert Join(names) == names[0] + ([COMMA] + Join(names[1..]));
    }
  }

  lemma {:induction false} SplitPartsJoin(names: seq<string>)
    requires |names| > 0
    requires forall k :: 0 <= k < |names| ==> ValidName(names[k])
    ensures SplitParts(Join(names)) == names
  {
    var t := Join(names);
    if |names| == 1 {
      FirstCommaOfName(names[0], []);
      assert names[0] + [] == names[0];
    } else {
      var tail := [COMMA] + Join(names[1..]);
      assert t == names[0] + tail;
      FirstCommaOfName(names[0], tail);
      var i := |names[0]|;
      assert t[..i] == names[0];
      assert t[i + 1..] == Join(names[1..]);
      SplitPartsJoin(names[1..]);
      assert names == [names[0]] + names[1..];
    }
  }

  lemma {:induction false} JoinIsByteText(names: seq<string>)
    requires forall k :: 0 <= k < |names| ==> ValidName(names[k])
    ensures IsByteText(Join(names))
  {
    if |names| > 1 {
      JoinIsByteText(names[1..]);
      var t := Join(names);
      assert t == names[0] + [COMMA] + Join(names[1..]);
      forall i | 0 <= i < |t| ensures t[i] as int < 0x100 {
        if i < |names[0]| {
          assert t[i] == names[0][i];
        } else if i > |names[0]| {
          assert t[i] == Join(names[1..])[i - |names[0]| - 1];
        }
      }
    }
  }

  lemma TextBytesRoundTrip(t: string)
    requires IsByteText(t)
    ensures BytesText(TextBytes(t)) == t
  {
  }

  // ---- one field ----

  /** `string` of RFC 4251: a uint32 length then the bytes. */
  function EncString(b: seq<Byte>): Result<seq<Byte>>
  {
    if |b| >= U32_MODULUS then Err(NoRoom) else Ok(BE32(|b|) + b)
  }

  function DecString(s: seq<Byte>): (r: Result<(seq<Byte>, seq<Byte>)>)
    ensures r.Ok? ==> |r.value.1| < |s|
  {
    if |s| < 4 then Err(RanOut)
    else
      var n := ReadBE32(s);
      if |s| - 4 < n then Err(RanOut)
      else Ok((s[4..4 + n], s[4 + n..]))
  }

  /** Writes one field. A string too long for its 32-bit length cannot be
      written into any buffer; a text that is not a byte string, a name-list
      entry that is empty or holds a comma, and a cookie of the wrong size are
      values the engine's own types cannot hold and are internal errors. */
  function EncField(f: Field): (r: Result<seq<Byte>>)
  {
    match f
    case FU32(u) => Ok(BE32(u))
    case FBool(b) => Ok([if b then 1 else 0])
    case FText(t) =>
      if IsByteText(t) then EncString(TextBytes(t)) else Err(Bug)
    case FBin(b) => EncString(b)
    case FNames(ns) =>
      if forall k :: 0 <= k < |ns| ==> ValidName(ns[k]) then
        JoinIsByteText(ns);
        EncString(TextBytes(Join(ns)))
      else Err(Bug)
    case FCookie(c) => if |c| == COOKIE_LEN then Ok(c) else Err(Bug)
  }

  /** Reads one field of the given kind; a boolean is true for any non-zero
      byte (RFC 4251 section 5). */
  function DecField(k: Kind, s: seq<Byte>): (r: Result<(Field, seq<Byte>)>)
    ensures r.Ok? ==> HasKind(r.value.0, k) && |r.value.1| < |s|
  {
    match k
    case KU32 => if |s| < 4 then Err(RanOut) else Ok((FU32(ReadBE32(s)), s[4..]))
    case KBool => if |s| < 1 then Err(RanOut) else Ok((FBool(s[0] != 0), s[1..]))
    case KText =>
      var d :- DecString(s);
      Ok((FText(BytesText(d.0)), d.1))
    case KBin =>
      var d :- DecString(s);
      Ok((FBin(d.0), d.1))
    case KNames =>
      var d :- DecString(s);
      Ok((FNames(Split(BytesText(d.0))), d.1))
    case KCookie =>
      if |s| < COOKIE_LEN then Err(RanOut) else Ok((FCookie(s[..COOKIE_LEN]), s[COOKIE_LEN..]))
  }

  lemma StringRoundTrip(b: seq<Byte>, rest: seq<Byte>)
    requires EncString(b).Ok?
    ensures DecString(EncString(b).value + rest) == Ok((b, rest))
  {
    var s := EncString(b).value + rest;
    BE32RoundTrip(|b|, b + rest);
    assert s == BE32(|b|) + (b + rest);
    assert s[4..4 + |b|] == b;
    assert s[4 + |b|..] == rest;
  }

  /** Reading a field back from its encoding gives the field and leaves the
      following bytes untouched. */
  lemma FieldRoundTrip(f: Field, rest: seq<Byte>)
    requires EncField(f).Ok?
    ensures DecField(KindOf(f), EncField(f).value + rest) == Ok((f, rest))
  {
    var s := EncField(f).value + rest;
    match f
    case FU32(u) => BE32RoundTrip(u, rest);
    case FBool(b) =>
    case FText(t) =>
      StringRoundTrip(TextBytes(t), rest);
      TextBytesRoundTrip(t);
    case FBin(b) => StringRoundTrip(b, rest);
    case FNames(ns) =>
      JoinIsByteText(ns);
      StringRoundTrip(TextBytes(Join(ns)), rest);
      TextBytesRoundTrip(Join(ns));
      SplitJoin(ns);
    case FCookie(c) =>
      assert s[..COOKIE_LEN] == c && s[COOKIE_LEN..] == rest;
  }

  // ---- sequences of fields ----

  function EncFields(fs: seq<Field>): (r: Result<seq<Byte>>)
  {
    if |fs| == 0 then Ok([])
    else
      var head :- EncField(fs[0]);
      var tail :- EncFields(fs[1..]);
      Ok(head + tail)
  }

  function DecFields(ks: seq<Kind>, s: seq<Byte>): (r: Result<(seq<Field>, seq<Byte>)>)
    ensures r.Ok? ==> KindsMatch(r.value.0, ks) && |r.value.1| <= |s|
  {
    if |ks| == 0 then Ok(([], s))
    else
      var head :- DecField(ks[0], s);
      var tail :- DecFields(ks[1..], head.1);
      Ok(([head.0] + tail.0, tail.1))
  }

  function KindsOf(fs: seq<Field>): (ks: seq<Kind>)
    ensures KindsMatch(fs, ks)
  {
    seq(|fs|, i requires 0 <= i < |fs| => KindOf(fs[i]))
  }

  /** A message body read back from its encoding is the body written. */
  lemma {:induction false} FieldsRoundTrip(fs: seq<Field>, rest: seq<Byte>)
    requires EncFields(fs).Ok?
    ensures DecFields(KindsOf(fs), EncFields(fs).value + rest) == Ok((fs, rest))
  {
    if |fs| > 0 {
      var head := EncField(fs[0]).value;
      var tail := EncFields(fs[1..]).value;
      var s := EncFields(fs).value + rest;
      assert s == head + (tail + rest);
      var ks := KindsOf(fs);
      FieldRoundTrip(fs[0], tail + rest);
      assert DecField(ks[0], s) == Ok((fs[0], tail + rest));
      FieldsRoundTrip(fs[1..], rest);
      assert ks[1..] == KindsOf(fs[1..]);
      assert DecFields(ks[1..], tail + rest) == Ok((fs[1..], rest));
      assert [fs[0]] + fs[1..] == fs;
      assert DecFields(ks, s) == Ok(([fs[0]] + fs[1..], rest));
    } else {
      assert EncFields(fs).value + rest == rest;
    }
  }

  /** Writing two runs of fields is writing their concatenation. */
  lemma {:induction false} EncFieldsAppend(a: seq<Field>, b: seq<Field>)
    ensures EncFields(a + b).Ok? <==> EncFields(a).Ok? && EncFields(b).Ok?
    ensures EncFields(a + b).Ok? ==> EncFields(a + b).value == EncFields(a).value + EncFields(b).value
  {
    if |a| > 0 {
      assert (a + b)[0] == a[0];
      assert (a + b)[1..] == a[1..] + b;
      EncFieldsAppend(a[1..], b);
    } else {
      assert a + b == b;
    }
  }
}
