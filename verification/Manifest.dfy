/** The manifest's trip through object metadata: SanitizeMetadata on the way out (internal/storage/s3.go),
    parseRemoteObject on the way back (internal/recorder/upload.go). Texts are sequences of characters; lengths are
    counted in UTF-8 bytes as the source does. */
module Manifest {
  import opened Bytes
  import opened Strings

  // ---------------------------------------------------------------------------------------------------------------
  // Values
  // ---------------------------------------------------------------------------------------------------------------

  function Width(c: char): (n: nat)
    ensures 1 <= n <= 4
  {
    if c as int < 0x80 then 1 else if c as int < 0x800 then 2 else if c as int < 0x10000 then 3 else 4
  }

  function ByteLen(s: string): (n: nat)
    ensures n >= |s|
  {
    if s == [] then 0 else ByteLen(s[..|s| - 1]) + Width(s[|s| - 1])
  }

  predicate IsControl(c: char) {
    c as int < 0x20 || c as int == 0x7f
  }

  predicate IsAscii(s: string) {
    forall i :: 0 <= i < |s| ==> IsAsciiChar(s[i])
  }

  predicate IsAsciiChar(c: char) {
    c as int <= 0x7f
  }

  /** A value that headers carry as it is. */
  predicate Printable(s: string) {
    forall i :: 0 <= i < |s| ==> 0x20 <= s[i] as int <= 0x7e
  }

  function Stripped(s: string): (t: string)
    ensures |t| <= |s|
  {
    if s == [] then []
    else
      var c := s[|s| - 1];
      Stripped(s[..|s| - 1]) + if IsControl(c) then [] else [c]
  }

  /** truncateUTF8: the longest prefix of whole characters within max bytes. */
  function Truncated(s: string, max: nat): (t: string)
    ensures t <= s && ByteLen(t) <= max
    ensures ByteLen(s) <= max ==> t == s
    ensures t != s ==> ByteLen(s[..|t| + 1]) > max
  {
    if ByteLen(s) <= max then s
    else
      var t := Truncated(s[..|s| - 1], max);
      assert s[..|s| - 1][..|t|] == s[..|t|];
      assert |t| < |s| - 1 ==> s[..|s| - 1][..|t| + 1] == s[..|t| + 1];
      assert |t| == |s| - 1 ==> s[..|t| + 1] == s;
      t
  }

  /** What is encoded of a text: a prefix, shrunk until its encoding fits or there is next to nothing left. `encode` is
      mime.BEncoding. */
  function Shrunk(plain: string, max: nat, encode: string -> string): (src: string)
    ensures src <= plain && (ByteLen(encode(src)) <= 2 * max || ByteLen(src) <= 8)
    ensures ByteLen(encode(plain)) <= 2 * max ==> src == plain
    decreases ByteLen(plain)
  {
    if ByteLen(encode(plain)) > 2 * max && ByteLen(plain) > 8 then
      Shrunk(Truncated(plain, ByteLen(plain) * 3 / 4), max, encode)
    else plain
  }

  function SanitizedValue(v: string, max: nat, encode: string -> string): (s: string)
  {
    var t := Truncated(TrimSpace(Stripped(v)), max);
    if forall i :: 0 <= i < |v| ==> v[i] as int <= 0x7f then t else encode(Shrunk(t, max, encode))
  }

  /** sanitizeValue: within max bytes as it is, or the encoding of a prefix, which is within 2 * max or of 8 bytes at
      most. */
  method SanitizeValue(v: string, max: nat, encode: string -> string) returns (s: string)
    ensures s == SanitizedValue(v, max, encode)
    ensures IsAscii(v) ==> ByteLen(s) <= max
    ensures !IsAscii(v) ==>
              var src := Shrunk(Truncated(TrimSpace(Stripped(v)), max), max, encode);
              s == encode(src) && ByteLen(src) <= max && (ByteLen(s) <= 2 * max || ByteLen(src) <= 8)
  {
    hide Truncated, ByteLen, TrimSpace;
    assert IsAscii(v) <==> forall i :: 0 <= i < |v| ==> v[i] as int <= 0x7f by {
      assert forall i :: 0 <= i < |v| ==> (IsAsciiChar(v[i]) <==> v[i] as int <= 0x7f);
    }
    var kept, ascii := "", true;
    for i := 0 to |v|
      invariant kept == Stripped(v[..i])
      invariant ascii <==> forall k :: 0 <= k < i ==> v[k] as int <= 0x7f
    {
      assert v[..i + 1][..i] == v[..i];
      var c := v[i];
      if c as int < 0x20 || c as int == 0x7f {
        continue;
      }
      if c as int > 0x7e {
        ascii := false;
      }
      kept := kept + [c];
    }
    assert v[..|v|] == v;
    s := TrimSpace(kept);
    if ByteLen(s) > max {
      s := Truncated(s, max);
    }
    if !ascii {
      var plain := s;
      s := encode(plain);
      ghost var whole, src := plain, Shrunk(plain, max, encode);
      while ByteLen(s) > 2 * max && ByteLen(plain) > 8
        invariant s == encode(plain) && src == Shrunk(plain, max, encode) && plain <= whole
        decreases ByteLen(plain)
      {
        plain := Truncated(plain, ByteLen(plain) * 3 / 4);
        s := encode(plain);
      }
      PrefixIsShorter(plain, whole);
    }
  }

  lemma {:induction false} PrefixIsShorter(t: string, s: string)
    requires t <= s
    ensures ByteLen(t) <= ByteLen(s)
  {
    if |t| < |s| {
      PrefixIsShorter(t, s[..|s| - 1]);
    } else {
      assert t == s;
    }
  }

  lemma AsciiIsCut(s: string, max: nat)
    requires IsAscii(s) && |s| > max
    ensures Truncated(s, max) == s[..max]
  {
    hide Truncated, ByteLen, IsAscii;
    AsciiLen(s);
    var n := |Truncated(s, max)|;
    assert Truncated(s, max) == s[..n];
    AsciiPrefix(s, n);
    AsciiLen(s[..n]);
    if n < max {
      AsciiPrefix(s, n + 1);
      AsciiLen(s[..n + 1]);
    }
  }

  lemma AsciiPrefix(s: string, n: nat)
    requires IsAscii(s) && n <= |s|
    ensures IsAscii(s[..n])
  {
    hide IsAsciiChar;
    assert forall i :: 0 <= i < n ==> s[..n][i] == s[i];
  }

  lemma {:induction false} AsciiLen(s: string)
    requires IsAscii(s)
    ensures ByteLen(s) == |s|
  {
    if s != [] {
      AsciiLen(s[..|s| - 1]);
    }
  }

  /** Exactly the control characters go. */
  lemma {:induction false} StrippedInOrder(a: string, b: string, c: char)
    ensures Stripped(a + b) == Stripped(a) + Stripped(b)
    ensures Stripped("") == "" && Stripped([c]) == if c as int < 0x20 || c as int == 0x7f then "" else [c]
    decreases |b|
  {
    assert [c][..0] == [];
    if b == [] {
      assert a + b == a;
    } else {
      var n := |b| - 1;
      assert (a + b)[..|a + b| - 1] == a + b[..n];
      StrippedInOrder(a, b[..n], c);
    }
  }

  lemma {:induction false} StrippedStays(s: string)
    ensures Stripped(s) == s <==> forall i :: 0 <= i < |s| ==> !IsControl(s[i])
  {
    if s != [] {
      var n := |s| - 1;
      StrippedStays(s[..n]);
      if Stripped(s) == s {
        assert |Stripped(s[..n])| <= n;
        assert !IsControl(s[n]);
        assert Stripped(s)[..n] == Stripped(s[..n]);
      }
    }
  }

  /** An ASCII value comes through unchanged exactly when it has no control characters, no surrounding spaces and
      fits. */
  lemma AsciiValueStays(v: string, max: nat, encode: string -> string)
    requires IsAscii(v)
    ensures SanitizedValue(v, max, encode) == v <==> Printable(v) && Trimmed(v) && |v| <= max
  {
    StrippedStays(v);
    AsciiLen(v);
    assert forall i :: 0 <= i < |v| ==> IsAsciiChar(v[i]);
    if Printable(v) && Trimmed(v) && |v| <= max {
      assert forall i :: 0 <= i < |v| ==> !IsControl(v[i]);
      TrimmedStays(v);
    }
    if SanitizedValue(v, max, encode) == v {
      TrimShrinks(Stripped(v));
      assert |TrimSpace(Stripped(v))| >= |v|;
      assert Stripped(v) == v;
      TrimSpaceTrims(v);
      assert forall i :: 0 <= i < |v| ==> !IsControl(v[i]);
    }
  }

  /** ... and one that is too long is cut. */
  lemma AsciiValueIsCut(v: string, max: nat, encode: string -> string)
    requires IsAscii(v) && Printable(v) && Trimmed(v) && |v| > max
    ensures SanitizedValue(v, max, encode) == v[..max]
  {
    hide Truncated, Stripped, TrimSpace, Shrunk;
    AsciiIsCut(v, max);
    StrippedStays(v);
    TrimmedStays(v);
    assert forall i :: 0 <= i < |v| ==> IsAsciiChar(v[i]);
  }

  lemma {:induction false} TrimLeftShrinks(s: string)
    ensures |TrimLeft(s)| <= |s| && (|TrimLeft(s)| == |s| ==> TrimLeft(s) == s)
  {
    if s != [] && IsSpace(s[0]) {
      TrimLeftShrinks(s[1..]);
    }
  }

  lemma TrimShrinks(s: string)
    ensures |TrimSpace(s)| <= |s| && (|TrimSpace(s)| == |s| ==> TrimSpace(s) == s)
  {
    TrimLeftShrinks(s);
  }

  // ---------------------------------------------------------------------------------------------------------------
  // Keys
  // ---------------------------------------------------------------------------------------------------------------

  /** strings.ToLower, as far as it can lead into [a-z]: ASCII, the Kelvin sign and the dotted capital I. */
  function Lower(c: char): (l: char)
  {
    if 'A' <= c <= 'Z' then (c as int + 32) as char
    else if c as int == 0x212A then 'k'
    else if c as int == 0x130 then 'i'
    else c
  }

  predicate InKey(c: char) {
    'a' <= c <= 'z' || '0' <= c <= '9' || c == '-'
  }

  function Mapped(k: string): (t: string)
    ensures forall i :: 0 <= i < |t| ==> InKey(t[i])
  {
    if k == [] then []
    else
      var l := Lower(k[|k| - 1]);
      Mapped(k[..|k| - 1]) + if InKey(l) then [l] else if l == '_' || l == ' ' || l == '.' then "-" else []
  }

  function NoLeadingDash(k: string): (t: string)
  {
    if k != [] && k[0] == '-' then NoLeadingDash(k[1..]) else k
  }

  function NoTrailingDash(k: string): (t: string)
  {
    if k != [] && k[|k| - 1] == '-' then NoTrailingDash(k[..|k| - 1]) else k
  }

  /** sanitizeKey. */
  function SanitizedKey(k: string): (t: string)
  {
    NoTrailingDash(NoLeadingDash(Mapped(k)))
  }

  /** The recorder's own names: lower-case words and digits joined by dashes. */
  predicate PlainKey(k: string) {
    k != [] && k[0] != '-' && k[|k| - 1] != '-' && forall i :: 0 <= i < |k| ==> InKey(k[i])
  }

  lemma LowerStays(c: char)
    requires InKey(c)
    ensures Lower(c) == c
  {
  }

  lemma {:induction false} MappedStays(k: string)
    requires forall i :: 0 <= i < |k| ==> InKey(k[i])
    ensures Mapped(k) == k
  {
    if k != [] {
      var n := |k| - 1;
      assert InKey(k[n]);
      LowerStays(k[n]);
      hide Lower, InKey;
      MappedStays(k[..n]);
      assert k == k[..n] + [k[n]];
    }
  }

  lemma PlainKeyStays(k: string)
    requires PlainKey(k)
    ensures SanitizedKey(k) == k
  {
    MappedStays(k);
  }

  /** Character by character: letters in lower case, digits and dashes stay, '_', ' ' and '.' become dashes, everything
      else goes. */
  lemma {:induction false} KeysAreMapped(a: string, b: string, c: char)
    ensures Mapped(a + b) == Mapped(a) + Mapped(b) && Mapped("") == ""
    ensures c < 'A' || 'Z' < c < '\U{80}' ==>
              Mapped([c]) == if 'a' <= c <= 'z' || '0' <= c <= '9' then [c]
                             else if c == '-' || c == '_' || c == ' ' || c == '.' then "-" else ""
    ensures 'A' <= c <= 'Z' ==> Mapped([c]) == [c - 'A' + 'a']
    decreases |b|
  {
    assert [c][..0] == [];
    if b == [] {
      assert a + b == a;
    } else {
      var n := |b| - 1;
      assert (a + b)[..|a + b| - 1] == a + b[..n];
      KeysAreMapped(a, b[..n], c);
    }
  }

  lemma {:induction false} NoLeadingDashIs(k: string)
    ensures var t := NoLeadingDash(k); |t| <= |k| && k[|k| - |t|..] == t && (t == "" || t[0] != '-')
    ensures forall i :: 0 <= i < |k| - |NoLeadingDash(k)| ==> k[i] == '-'
  {
    if k != [] && k[0] == '-' {
      NoLeadingDashIs(k[1..]);
      var t := NoLeadingDash(k);
      assert k[1..][|k| - 1 - |t|..] == k[|k| - |t|..];
      assert forall i :: 0 < i < |k| - |t| ==> k[i] == k[1..][i - 1];
    }
  }

  lemma {:induction false} NoTrailingDashIs(k: string)
    ensures var t := NoTrailingDash(k); t <= k && (t == "" || t[|t| - 1] != '-')
    ensures forall i :: |NoTrailingDash(k)| <= i < |k| ==> k[i] == '-'
  {
    if k != [] && k[|k| - 1] == '-' {
      NoTrailingDashIs(k[..|k| - 1]);
    }
  }

  /** What comes out is a plain key or nothing: the mapped key without the dashes around it. */
  lemma SanitizedKeyIsPlain(k: string)
    ensures var t := SanitizedKey(k);
            && (t == "" || PlainKey(t))
            && exists left: string, right: string ::
                 Dashes(left) && Dashes(right) && Mapped(k) == left + t + right
  {
    hide NoLeadingDash, NoTrailingDash, Mapped, InKey;
    var m := Mapped(k);
    var l := NoLeadingDash(m);
    var t := NoTrailingDash(l);
    NoLeadingDashIs(m);
    NoTrailingDashIs(l);
    Framed(m, l, t);
  }

  lemma Framed(m: string, l: string, t: string)
    requires |l| <= |m| && m[|m| - |l|..] == l && (forall i :: 0 <= i < |m| - |l| ==> m[i] == '-')
    requires t <= l && forall i :: |t| <= i < |l| ==> l[i] == '-'
    ensures exists left: string, right: string :: Dashes(left) && Dashes(right) && m == left + t + right
    ensures forall i :: 0 <= i < |t| ==> t[i] == m[|m| - |l| + i]
    ensures t != "" ==> l != "" && t[0] == l[0]
  {
    var left, right := m[..|m| - |l|], l[|t|..];
    assert m == left + l && l == t + right;
    Associate(left, t, right);
    assert Dashes(left) && Dashes(right) && m == left + t + right;
  }

  predicate Dashes(s: string) {
    forall i :: 0 <= i < |s| ==> s[i] == '-'
  }

  predicate IsReserved(k: string) {
    k == "recording-id" || k == "sessions" || k == "parts" || k == "last-session-start"
  }

  const RESERVED_MAX: nat := 1024
  const VALUE_MAX: nat := 256
  const BUDGET: nat := 1800

  // ---------------------------------------------------------------------------------------------------------------
  // The whole set
  // ---------------------------------------------------------------------------------------------------------------

  /** Bytes of an entry. */
  function EntrySize(k: string, v: string): (n: nat)
  {
    |k| + ByteLen(v)
  }

  /** Bytes of all entries, in whatever order they are added up. */
  ghost function Size(m: map<string, string>): (n: nat)
    decreases |m|
  {
    if m == map[] then 0
    else
      var k :| k in m;
      EntrySize(k, m[k]) + Size(m - {k})
  }

  lemma {:induction false} SizeWithout(m: map<string, string>, k: string)
    requires k in m
    ensures Size(m) == EntrySize(k, m[k]) + Size(m - {k})
    decreases |m|
  {
    var c :| c in m && Size(m) == EntrySize(c, m[c]) + Size(m - {c});
    if c != k {
      SizeWithout(m - {c}, k);
      SizeWithout(m - {k}, c);
      assert m - {c} - {k} == m - {k} - {c};
    }
  }

  lemma SizeOfOneMore(m: map<string, string>, k: string, v: string)
    requires k !in m
    ensures Size(m[k := v]) == Size(m) + EntrySize(k, v)
  {
    SizeWithout(m[k := v], k);
    assert m[k := v] - {k} == m;
  }

  function OnlyReserved(m: map<string, string>): (r: map<string, string>)
  {
    map k | k in m && IsReserved(k) :: m[k]
  }

  /** The entry under k comes from one of these keys. */
  ghost predicate ComesFrom(m: map<string, string>, keys: seq<string>, k: string, v: string, encode: string -> string) {
    exists i :: 0 <= i < |keys| && keys[i] in m && SanitizedKey(keys[i]) == k &&
                v == SanitizedValue(m[keys[i]], if IsReserved(k) then RESERVED_MAX else VALUE_MAX, encode)
  }

  /** What an entry of this key is cut to, and what it becomes. */
  function Cleaned(m: map<string, string>, key: string, encode: string -> string): (v: string)
    requires key in m
  {
    SanitizedValue(m[key], if IsReserved(SanitizedKey(key)) then RESERVED_MAX else VALUE_MAX, encode)
  }

  /** Nothing is made up: every entry of out that was not there before is one of the input's, cleaned. */
  ghost predicate Honest(m: map<string, string>, keys: seq<string>, before: map<string, string>,
                         out: map<string, string>,
                         encode: string -> string) {
    && before.Keys <= out.Keys
    && (forall k :: k in before ==> out[k] == before[k])
    && forall k :: k in out && k !in before ==> out[k] != "" && ComesFrom(m, keys, k, out[k], encode)
  }

  /** No reserved entry of the first n keys is missing. */
  ghost predicate Arrived(m: map<string, string>, keys: seq<string>, n: int, out: map<string, string>,
                          encode: string -> string) {
    forall i :: 0 <= i < n <= |keys| && keys[i] in m && IsReserved(SanitizedKey(keys[i])) &&
                Cleaned(m, keys[i], encode) != "" ==>
      SanitizedKey(keys[i]) in out
  }

  /** Whatever else there is of the first n keys, and is not in out, would not fit behind it. */
  ghost predicate Fitted(m: map<string, string>, keys: seq<string>, n: int, out: map<string, string>,
                         encode: string -> string) {
    forall i :: 0 <= i < n <= |keys| && keys[i] in m && SanitizedKey(keys[i]) != "" &&
                !IsReserved(SanitizedKey(keys[i])) && Cleaned(m, keys[i], encode) != "" ==>
      Fits(out, SanitizedKey(keys[i]), Cleaned(m, keys[i], encode))
  }

  ghost predicate Fits(out: map<string, string>, k: string, v: string) {
    k in out || Size(out) + EntrySize(k, v) > 1800
  }

  lemma FittedGrows(m: map<string, string>, keys: seq<string>, n: nat, out: map<string, string>, k: string, v: string,
                    encode: string -> string)
    requires Fitted(m, keys, n, out, encode) && k !in out
    ensures Fitted(m, keys, n, out[k := v], encode)
  {
    hide SanitizedKey, SanitizedValue, Size, IsReserved, Cleaned, EntrySize;
    SizeOfOneMore(out, k, v);
    EntriesCost(k, v);
  }

  lemma EntriesCost(k: string, v: string)
    ensures EntrySize(k, v) >= 0
  {
  }

  lemma OneMore(m: map<string, string>, keys: seq<string>, before: map<string, string>, out: map<string, string>,
                encode: string -> string, i: nat)
    requires Honest(m, keys, before, out, encode) && i < |keys| && keys[i] in m
    requires SanitizedKey(keys[i]) !in out && Cleaned(m, keys[i], encode) != ""
    ensures Honest(m, keys, before, out[SanitizedKey(keys[i]) := Cleaned(m, keys[i], encode)], encode)
  {
    hide SanitizedKey, SanitizedValue;
    assert ComesFrom(m, keys, SanitizedKey(keys[i]), Cleaned(m, keys[i], encode), encode);
    hide ComesFrom, Cleaned;
  }

  /** One pass: the reserved keys, or all others. */
  method Pass(input: map<string, string>, keys: seq<string>, encode: string -> string, reserved: bool,
              before: map<string, string>, size: nat) returns (out: map<string, string>, total: nat)
    requires forall i :: 0 <= i < |keys| ==> keys[i] in input
    requires size == Size(before)
    ensures total == Size(out) && Honest(input, keys, before, out, encode)
    ensures forall k :: k in out && k !in before ==> IsReserved(k) == reserved
    ensures reserved ==> Arrived(input, keys, |keys|, out, encode)
    ensures !reserved ==> (total <= size || total <= 1800) && Fitted(input, keys, |keys|, out, encode)
  {
    hide SanitizedKey, SanitizedValue, ComesFrom, Size, ByteLen, IsReserved, Honest, Cleaned;
    out, total := before, size;
    assert Honest(input, keys, before, before, encode) by {
      NothingNew(input, keys, before, encode);
    }
    for i := 0 to |keys|
      invariant total == Size(out) && Honest(input, keys, before, out, encode)
      invariant forall k :: k in out && k !in before ==> IsReserved(k) == reserved
      invariant reserved ==> Arrived(input, keys, i, out, encode)
      invariant !reserved ==> (total <= size || total <= BUDGET) && Fitted(input, keys, i, out, encode)
    {
      var k := SanitizedKey(keys[i]);
      if k == "" || IsReserved(k) != reserved {
        EmptyIsNotReserved();
        continue;
      }
      if k in out {
        continue;
      }
      var max := VALUE_MAX;
      if reserved {
        max := RESERVED_MAX;
      }
      var v := SanitizeValue(input[keys[i]], max, encode);
      CleanedIs(input, keys[i], encode);
      assert v == Cleaned(input, keys[i], encode);
      if v == "" {
        continue;
      }
      if !reserved && total + |k| + ByteLen(v) > BUDGET {
        continue;
      }
      SizeOfOneMore(out, k, v);
      OneMore(input, keys, before, out, encode, i);
      if !reserved {
        FittedGrows(input, keys, i, out, k, v, encode);
      }
      total := total + |k| + ByteLen(v);
      out := out[k := v];
    }
  }

  /** An ASCII value goes out as it is exactly if it is printable, without surrounding spaces and not over its limit:
      1024 bytes for what merging needs, 256 for the rest. */
  lemma EntryStays(m: map<string, string>, key: string, encode: string -> string)
    requires key in m && IsAscii(m[key])
    ensures Cleaned(m, key, encode) == m[key] <==>
              Printable(m[key]) && Trimmed(m[key]) && |m[key]| <= if IsReserved(SanitizedKey(key)) then 1024 else 256
  {
    hide SanitizedKey, SanitizedValue, IsReserved, Printable, Trimmed;
    CleanedIs(m, key, encode);
    AsciiValueStays(m[key], if IsReserved(SanitizedKey(key)) then RESERVED_MAX else VALUE_MAX, encode);
  }

  lemma CleanedIs(m: map<string, string>, key: string, encode: string -> string)
    requires key in m
    ensures Cleaned(m, key, encode) ==
              SanitizedValue(m[key], if IsReserved(SanitizedKey(key)) then RESERVED_MAX else VALUE_MAX, encode)
  {
  }

  lemma NothingNew(m: map<string, string>, keys: seq<string>, before: map<string, string>, encode: string -> string)
    ensures Honest(m, keys, before, before, encode)
  {
  }

  lemma EmptyIsNotReserved()
    ensures !IsReserved("")
  {
  }

  /** SanitizeMetadata: the reserved entries first and whatever they cost, the others while they fit. `keys` are the
      input's, sorted. */
  method SanitizeMetadata(input: map<string, string>, keys: seq<string>, encode: string -> string)
      returns (out: map<string, string>)
    requires forall k :: k in input <==> k in keys
    ensures Size(out) <= 1800 || Size(out) == Size(OnlyReserved(out))
    ensures Honest(input, keys, map[], out, encode) && Arrived(input, keys, |keys|, out, encode)
    ensures Fitted(input, keys, |keys|, out, encode)
  {
    hide SanitizedKey, SanitizedValue, ComesFrom, Size, IsReserved, Cleaned, Fitted;
    NoSize();
    var first, total := Pass(input, keys, encode, true, map[], 0);
    var rest;
    out, rest := Pass(input, keys, encode, false, first, total);
    assert OnlyReserved(out) == first;
    AddingCosts(out, first);
  }

  lemma NoSize()
    ensures Size(map[]) == 0
  {
  }

  /** A larger set has a larger size, and one of equal size is the same. */
  lemma {:induction false} AddingCosts(m: map<string, string>, part: map<string, string>)
    requires part.Keys <= m.Keys && (forall k :: k in part ==> part[k] == m[k])
    ensures Size(part) <= Size(m)
    decreases |m|
  {
    if part.Keys == m.Keys {
      assert part == m;
    } else {
      var k :| k in m && k !in part;
      SizeWithout(m, k);
      AddingCosts(m - {k}, part);
    }
  }

  /** Everything a merge goes by arrives, whatever else there is: id, list, count and the last start. */
  lemma ManifestKeysArrive(input: map<string, string>, keys: seq<string>, out: map<string, string>,
                           encode: string -> string, k: string)
    requires Arrived(input, keys, |keys|, out, encode) && k in keys && k in input && Cleaned(input, k, encode) != ""
    requires k == "recording-id" || k == "sessions" || k == "parts" || k == "last-session-start"
    ensures k in out
  {
    hide Cleaned, SanitizedKey;
    assert PlainKey(k);
    PlainKeyStays(k);
    var i :| 0 <= i < |keys| && keys[i] == k;
    assert SanitizedKey(keys[i]) in out;
  }

  // ---------------------------------------------------------------------------------------------------------------
  // Reading it back
  // ---------------------------------------------------------------------------------------------------------------

  datatype Remote = ForeignObject | Inconsistent | Remote(recordingId: string, sessions: seq<string>, parts: int)

  function Value(meta: map<string, string>, k: string): (v: string)
  {
    if k in meta then TrimSpace(meta[k]) else ""
  }

  /** parseRemoteObject, as far as identity and manifest go. */
  method ParseRemoteObject(meta: map<string, string>) returns (r: Remote)
    ensures r == ForeignObject <==> Value(meta, "recording-id") == "" || Value(meta, "sessions") == ""
    ensures r.Remote? ==>
              && r.recordingId == Value(meta, "recording-id") && r.sessions == Digests(Value(meta, "sessions"))
              && Atoi(Value(meta, "parts")) == Some(r.parts) && r.parts == |r.sessions| && DigestList(r.sessions)
    ensures r == Inconsistent ==> Atoi(Value(meta, "parts")) != Some(|Digests(Value(meta, "sessions"))|)
  {
    var id := Value(meta, "recording-id");
    var list := Value(meta, "sessions");
    if id == "" || list == "" {
      return ForeignObject;
    }
    var pieces := Split(list);
    var digests := [];
    assert pieces[0..] == pieces;
    for i := 0 to |pieces|
      invariant digests + NonEmpty(pieces[i..]) == Digests(list)
    {
      assert pieces[i..][0] == pieces[i] && pieces[i..][1..] == pieces[i + 1..];
      var d := TrimSpace(pieces[i]);
      if d != "" {
        Associate(digests, [d], NonEmpty(pieces[i + 1..]));
        digests := digests + [d];
      }
    }
    assert pieces[|pieces|..] == [] && digests + [] == digests;
    DigestsAreList(list);
    var parts := Atoi(Value(meta, "parts"));
    if parts.None? || parts.value != |digests| {
      return Inconsistent;
    }
    r := Remote(id, digests, parts.value);
  }

  // ---------------------------------------------------------------------------------------------------------------
  // The round trip
  // ---------------------------------------------------------------------------------------------------------------

  /** sessionDigest's results: eight hexadecimal digits each. */
  predicate HexDigests(ds: seq<string>) {
    forall i :: 0 <= i < |ds| ==> |ds[i]| == 8 && IsHex(ds[i])
  }

  predicate IsHex(s: string) {
    forall i :: 0 <= i < |s| ==> '0' <= s[i] <= '9' || 'a' <= s[i] <= 'f'
  }

  const MAX_DIGESTS: nat := 113

  lemma {:induction false} JoinOfHex(ds: seq<string>)
    requires HexDigests(ds) && ds != []
    ensures |Join(ds)| == 9 * |ds| - 1 && Printable(Join(ds)) && Trimmed(Join(ds)) && IsAscii(Join(ds))
  {
    assert IsHex(ds[0]);
    if |ds| > 1 {
      assert HexDigests(ds[1..]);
      JoinOfHex(ds[1..]);
    }
  }

  lemma HexIsList(ds: seq<string>)
    requires HexDigests(ds)
    ensures DigestList(ds)
  {
    forall i | 0 <= i < |ds|
      ensures ds[i] != "" && ',' !in ds[i] && Trimmed(ds[i])
    {
      assert IsHex(ds[i]);
    }
  }

  lemma ItoaIsPlain(n: nat)
    ensures Printable(Itoa(n)) && Trimmed(Itoa(n)) && IsAscii(Itoa(n))
  {
    var s := Itoa(n);
    assert forall i :: 0 <= i < |s| ==> IsDigit(s[i]);
  }

  function Pow10(d: nat): (n: nat)
  {
    if d == 0 then 1 else 10 * Pow10(d - 1)
  }

  lemma {:induction false} ItoaLen(n: nat, d: nat)
    requires n < Pow10(d) && d > 0
    ensures |Itoa(n)| <= d
  {
    if n >= 10 {
      ItoaLen(n / 10, d - 1);
    }
  }

  // A Go slice is shorter than this.
  const INT_LIMIT: nat := 0x8000_0000_0000_0000

  /** The list as it is read back: the header's 1024 bytes hold 113 digests and seven digits of the next. */
  function ReadBack(ds: seq<string>): (read: seq<string>)
    requires HexDigests(ds)
    ensures read == ds <==> |ds| <= MAX_DIGESTS
  {
    if |ds| <= MAX_DIGESTS then ds
    else
      var cut := ds[..MAX_DIGESTS] + [ds[MAX_DIGESTS][..7]];
      assert cut[MAX_DIGESTS] != ds[MAX_DIGESTS];
      cut
  }

  /** The joined list up to within digest n is the list up to there, joined. */
  lemma {:induction false} JoinCut(ds: seq<string>, n: nat)
    requires HexDigests(ds) && n < |ds|
    ensures |Join(ds)| >= 9 * n + 7 && Join(ds)[..9 * n + 7] == Join(ds[..n] + [ds[n][..7]])
  {
    var cut := ds[..n] + [ds[n][..7]];
    if n == 0 {
      assert cut == [ds[0][..7]];
    } else {
      assert HexDigests(ds[1..]);
      JoinCut(ds[1..], n - 1);
      assert cut[1..] == ds[1..][..n - 1] + [ds[1..][n - 1][..7]];
      assert Join(ds) == ds[0] + "," + Join(ds[1..]);
      assert Join(cut) == ds[0] + "," + Join(cut[1..]);
      assert Join(ds)[..9 * n + 7] == ds[0] + "," + Join(ds[1..])[..9 * (n - 1) + 7];
    }
  }

  lemma CutIsList(ds: seq<string>)
    requires HexDigests(ds)
    ensures DigestList(ReadBack(ds))
  {
    HexIsList(ds);
    if |ds| > MAX_DIGESTS {
      var last := ds[MAX_DIGESTS];
      assert IsHex(last);
      assert forall i :: 0 <= i < 7 ==> last[..7][i] == last[i];
    }
  }

  /** What becomes of the list in its header. */
  lemma ListInHeader(ds: seq<string>, encode: string -> string)
    requires HexDigests(ds) && ds != []
    ensures var v := SanitizedValue(Join(ds), RESERVED_MAX, encode);
            v == TrimSpace(v) != "" && Digests(v) == ReadBack(ds)
  {
    hide SanitizedValue, Join, Digests, HexDigests, TrimSpace, Printable, Trimmed, IsAscii;
    var list := Join(ds);
    JoinOfHex(ds);
    CutIsList(ds);
    DigestsOfJoin(ReadBack(ds));
    if |ds| <= MAX_DIGESTS {
      AsciiValueStays(list, RESERVED_MAX, encode);
      TrimmedStays(list);
    } else {
      JoinCut(ds, MAX_DIGESTS);
      CutIsTrimmed(ds);
      AsciiValueIsCut(list, RESERVED_MAX, encode);
      TrimmedStays(list[..RESERVED_MAX]);
    }
  }

  lemma CutIsTrimmed(ds: seq<string>)
    requires HexDigests(ds) && |ds| > MAX_DIGESTS
    ensures |Join(ds)| >= RESERVED_MAX && Trimmed(Join(ds)[..RESERVED_MAX])
  {
    JoinCut(ds, MAX_DIGESTS);
    var list := Join(ds);
    assert IsHex(ds[0]) && list[0] == ds[0][0];
    EndOfCut(ds, MAX_DIGESTS);
  }

  lemma {:induction false} EndOfCut(ds: seq<string>, n: nat)
    requires HexDigests(ds) && n < |ds|
    ensures |Join(ds)| >= 9 * n + 7 && Join(ds)[9 * n + 6] == ds[n][6] && !IsSpace(ds[n][6])
  {
    assert IsHex(ds[n]);
    if n > 0 {
      assert HexDigests(ds[1..]);
      EndOfCut(ds[1..], n - 1);
      assert Join(ds) == ds[0] + "," + Join(ds[1..]);
    }
  }

  /** The manifest objectMetadata writes, among whatever else. No other key turns into a reserved name. */
  ghost predicate HoldsManifest(input: map<string, string>, id: string, ds: seq<string>) {
    && "recording-id" in input && input["recording-id"] == id
    && "sessions" in input && input["sessions"] == Join(ds)
    && "parts" in input && input["parts"] == Itoa(|ds|)
    && forall k :: k in input && IsReserved(SanitizedKey(k)) ==> k == SanitizedKey(k)
  }

  /** The recorder's own keys are plain, so the last condition holds of what it writes. */
  lemma PlainKeysDoNotCollide(input: map<string, string>)
    requires forall k :: k in input ==> PlainKey(k)
    ensures forall k :: k in input && IsReserved(SanitizedKey(k)) ==> k == SanitizedKey(k)
  {
    forall k | k in input
      ensures SanitizedKey(k) == k
    {
      PlainKeyStays(k);
    }
  }

  lemma ReservedKeyStays(k: string)
    requires IsReserved(k)
    ensures SanitizedKey(k) == k
  {
    PlainKeyStays(k);
  }

  /** A reserved entry arrives with its own sanitised value, whatever the other entries are. */
  lemma ReservedArrives(input: map<string, string>, keys: seq<string>, out: map<string, string>,
                        encode: string -> string, k: string)
    requires forall x :: x in input <==> x in keys
    requires Honest(input, keys, map[], out, encode) && Arrived(input, keys, |keys|, out, encode)
    requires forall x :: x in input && IsReserved(SanitizedKey(x)) ==> x == SanitizedKey(x)
    requires k in input && IsReserved(k)
    ensures var v := SanitizedValue(input[k], RESERVED_MAX, encode); v != "" ==> k in out && out[k] == v
  {
    ReservedKeyStays(k);
    hide SanitizedValue, SanitizedKey, IsReserved;
    var i :| 0 <= i < |keys| && keys[i] == k;
    if Cleaned(input, keys[i], encode) != "" {
      assert k in out;
      assert ComesFrom(input, keys, k, out[k], encode);
    }
  }

  /** What the three manifest values become on the way out. */
  lemma CountInHeader(n: nat, encode: string -> string)
    requires n < INT_LIMIT
    ensures SanitizedValue(Itoa(n), RESERVED_MAX, encode) == Itoa(n) == TrimSpace(Itoa(n)) && Itoa(n) != ""
            && Atoi(Itoa(n)) == Some(n)
  {
    assert Pow10(4) == 1_0000 && Pow10(8) == 1_0000_0000 && Pow10(12) == 1_0000_0000_0000
           && Pow10(16) == 1_0000_0000_0000_0000;
    assert Pow10(19) == 1000_0000_0000_0000_0000;
    hide Pow10;
    ItoaIsPlain(n);
    ItoaLen(n, 19);
    hide SanitizedValue, Itoa, Atoi;
    AsciiValueStays(Itoa(n), RESERVED_MAX, encode);
    TrimmedStays(Itoa(n));
    AtoiItoa(n);
  }

  lemma IdComesBackExactly(id: string, encode: string -> string)
    requires IsAscii(id)
    ensures TrimSpace(SanitizedValue(id, RESERVED_MAX, encode)) == id <==>
              Printable(id) && Trimmed(id) && |id| <= RESERVED_MAX
  {
    AsciiValueStays(id, RESERVED_MAX, encode);
    hide SanitizedValue, TrimSpace;
    if Printable(id) && Trimmed(id) && |id| <= RESERVED_MAX {
      TrimmedStays(id);
    }
    if TrimSpace(SanitizedValue(id, RESERVED_MAX, encode)) == id {
      IdIsPlain(id, encode);
    }
  }

  /** SanitizeMetadata then parseRemoteObject, for an ASCII recording id that is not emptied, whatever the other entries
      are. Up to 113 digests come back as they were; with 114 the list is consistent but its last digest has lost a
      digit; with more the count contradicts the list. The id comes back exactly when it is printable, has no
      surrounding spaces and fits. */
  method RoundTrip(input: map<string, string>, keys: seq<string>, encode: string -> string, id: string, ds: seq<string>)
      returns (out: map<string, string>, r: Remote)
    requires forall k :: k in input <==> k in keys
    requires HoldsManifest(input, id, ds) && HexDigests(ds) && 0 < |ds| < INT_LIMIT
    requires IsAscii(id) && TrimSpace(SanitizedValue(id, RESERVED_MAX, encode)) != ""
    ensures |ds| <= MAX_DIGESTS + 1 ==> r.Remote? && r.sessions == ReadBack(ds) && r.parts == |ds|
    ensures |ds| <= MAX_DIGESTS <==> r.Remote? && r.sessions == ds
    ensures |ds| > MAX_DIGESTS + 1 <==> r == Inconsistent
    ensures r.Remote? ==> (r.recordingId == id <==> Printable(id) && Trimmed(id) && |id| <= RESERVED_MAX)
    ensures Size(out) <= BUDGET || Size(out) == Size(OnlyReserved(out))
  {
    hide SanitizedValue, SanitizedKey, Join, Itoa, TrimSpace, Digests, Atoi, Size, OnlyReserved, Honest, Arrived,
      Printable, Trimmed, HexDigests;
    out := SanitizeMetadata(input, keys, encode);
    ListInHeader(ds, encode);
    CountInHeader(|ds|, encode);
    IdComesBackExactly(id, encode);
    EmptyTrims();
    ReservedArrives(input, keys, out, encode, "recording-id");
    ReservedArrives(input, keys, out, encode, "sessions");
    ReservedArrives(input, keys, out, encode, "parts");
    r := ParseRemoteObject(out);
  }

  lemma EmptyTrims()
    ensures TrimSpace("") == ""
  {
  }

  /** An id that comes back was plain. */
  lemma IdIsPlain(id: string, encode: string -> string)
    requires IsAscii(id) && TrimSpace(SanitizedValue(id, RESERVED_MAX, encode)) == id
    ensures Printable(id) && Trimmed(id) && |id| <= RESERVED_MAX
  {
    var v := SanitizedValue(id, RESERVED_MAX, encode);
    assert forall i :: 0 <= i < |id| ==> IsAsciiChar(id[i]);
    TrimShrinks(v);
    TrimShrinks(Stripped(id));
    assert |v| <= |TrimSpace(Stripped(id))| <= |Stripped(id)| <= |id|;
    assert v == id;
    AsciiValueStays(id, RESERVED_MAX, encode);
  }

  // ---------------------------------------------------------------------------------------------------------------
  // Recording ids
  // ---------------------------------------------------------------------------------------------------------------

  /** What a recording id has become when it is read back from an object's metadata. */
  function HeaderId(id: string, encode: string -> string): (h: string)
  {
    TrimSpace(SanitizedValue(id, RESERVED_MAX, encode))
  }

  /** A value that metadata carries as it is. */
  predicate Plain(v: string) {
    Printable(v) && Trimmed(v) && |v| <= RESERVED_MAX
  }

  lemma PlainIsAscii(v: string)
    requires Printable(v)
    ensures IsAscii(v)
  {
  }

  lemma {:induction false} StrippedIsPrintable(s: string)
    requires IsAscii(s)
    ensures Printable(Stripped(s))
  {
    if s != [] {
      StrippedIsPrintable(s[..|s| - 1]);
      assert IsAsciiChar(s[|s| - 1]);
    }
  }

  lemma {:induction false} TrimLeftIsPrintable(s: string)
    requires Printable(s)
    ensures Printable(TrimLeft(s))
  {
    if s != [] && IsSpace(s[0]) {
      TrimLeftIsPrintable(s[1..]);
    }
  }

  lemma TrimIsPrintable(s: string)
    requires Printable(s)
    ensures Printable(TrimSpace(s))
  {
    TrimLeftIsPrintable(s);
    var t := TrimSpace(s);
    assert forall i :: 0 <= i < |t| ==> t[i] == TrimLeft(s)[i];
  }

  /** The id read back is plain, for an ASCII id, and for any other that the encoding makes plain. */
  lemma HeaderIsPlain(id: string, encode: string -> string)
    requires IsAscii(id) || Plain(SanitizedValue(id, RESERVED_MAX, encode))
    ensures Plain(HeaderId(id, encode))
  {
    var v := SanitizedValue(id, RESERVED_MAX, encode);
    if IsAscii(id) {
      assert forall i :: 0 <= i < |id| ==> IsAsciiChar(id[i]);
      StrippedIsPrintable(id);
      TrimIsPrintable(Stripped(id));
      assert forall i :: 0 <= i < |v| ==> v[i] == TrimSpace(Stripped(id))[i];
      assert |v| <= ByteLen(v) <= RESERVED_MAX;
    }
    hide SanitizedValue;
    TrimIsPrintable(v);
    TrimSpaceTrims(v);
    TrimShrinks(v);
  }

  /** So it does not change any more when it is written and read once again. */
  lemma HeaderIsStable(id: string, encode: string -> string)
    requires IsAscii(id) || Plain(SanitizedValue(id, RESERVED_MAX, encode))
    ensures HeaderId(HeaderId(id, encode), encode) == HeaderId(id, encode)
  {
    var h := HeaderId(id, encode);
    HeaderIsPlain(id, encode);
    hide HeaderId;
    PlainComesBack(h, encode);
  }

  lemma PlainComesBack(h: string, encode: string -> string)
    requires Plain(h)
    ensures HeaderId(h, encode) == h
  {
    PlainIsAscii(h);
    AsciiValueStays(h, RESERVED_MAX, encode);
    hide SanitizedValue;
    TrimmedStays(h);
  }

  /** An id comes back as itself exactly when it is plain: always so for ASCII, and never plain otherwise when the
      encoding gives ASCII. */
  lemma PlainIdsExactly(id: string, encode: string -> string)
    requires IsAscii(id) || Plain(SanitizedValue(id, RESERVED_MAX, encode))
    ensures HeaderId(id, encode) == id <==> Plain(id)
  {
    HeaderIsPlain(id, encode);
    if Plain(id) {
      PlainComesBack(id, encode);
    }
  }
}
