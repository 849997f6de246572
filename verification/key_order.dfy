/** The order of an object's keys in canonical text, and how it differs from the UTF-16 order of
    section 3.2.3 of RFC 8785. */
module KeyOrder {
  import opened Wrappers
  import opened Orders
  import opened CanonicalJson

  // ------------------------------------------------------------------
  // The keys of an object, read off its text

  function MoreKeys(t: string): Option<seq<string>>
    decreases |t|
  {
    if t == "" then None
    else if t[0] == '}' then Some([])
    else if t[0] == ',' then
      var (first, rest) :- ReadField(t[1..]);
      var others :- MoreKeys(rest);
      Some([first.0] + others)
    else None
  }

  /** The keys of the object a text holds, as a reader meets them from left to right. */
  function KeysIn(t: string): Option<seq<string>> {
    if !("{" <= t) then None
    else if "}" <= t[1..] then Some([])
    else
      var (first, rest) :- ReadField(t[1..]);
      var others :- MoreKeys(rest);
      Some([first.0] + others)
  }

  lemma {:induction false} MeetsMoreKeys(j: Json, keys: seq<string>)
    requires j.Obj? && forall k <- keys :: k in j.fields
    ensures MoreKeys(DumpFields(j, keys)) == Some(keys)
  {
    hide ReadField, DumpField;
    if keys != [] {
      var tail := DumpFields(j, keys[1..]);
      assert DumpFields(j, keys)[1..] == DumpField(j, keys[0]) + tail;
      ReadsFields(j, keys[1..], "");
      ReadsField(j, keys[0], tail);
      MeetsMoreKeys(j, keys[1..]);
      assert [keys[0]] + keys[1..] == keys;
    }
  }

  lemma MeetsKeys(j: Json)
    requires j.Obj?
    ensures KeysIn(Dump(j)) == Some(SortedTexts(j.fields.Keys))
  {
    hide ReadField, DumpField, DumpFields, MoreKeys, SortedTexts, KeysIn;
    var keys := SortedTexts(j.fields.Keys);
    var t := Dump(j);
    assert t == "{" + ObjBody(j) && t[1..] == ObjBody(j);
    if keys == [] {
      NoKeysIn(t);
    } else {
      assert forall k <- keys[1..] :: k in j.fields;
      var tail := DumpFields(j, keys[1..]);
      ReadsFields(j, keys[1..], "");
      ReadsField(j, keys[0], tail);
      MeetsMoreKeys(j, keys[1..]);
      KeysInSteps(t, (keys[0], j.fields[keys[0]]), tail, keys[1..]);
      assert [keys[0]] + keys[1..] == keys;
    }
  }

  lemma NoKeysIn(t: string)
    requires |t| >= 2 && t[0] == '{' && t[1] == '}'
    ensures KeysIn(t) == Some([])
  {
  }

  lemma KeysInSteps(t: string, first: (string, Json), rest: string, others: seq<string>)
    requires |t| >= 2 && t[0] == '{' && t[1] != '}'
    requires ReadField(t[1..]) == Some((first, rest)) && MoreKeys(rest) == Some(others)
    ensures KeysIn(t) == Some([first.0] + others)
  {
    hide ReadField, MoreKeys;
  }

  /** In the text of any object its keys occur once each, in ascending code-point order. */
  lemma KeysAreOrderedByCodePoint(j: Json)
    requires j.Obj?
    ensures
      var keys := KeysIn(Dump(j));
      keys.Some? && Ascending(keys.value, TextLe) && Lists(keys.value, j.fields.Keys)
  {
    hide Dump, KeysIn, SortedTexts;
    MeetsKeys(j);
  }

  // ------------------------------------------------------------------
  // UTF-16 order

  /** The UTF-16 code units of a character (RFC 2781, section 2.1). */
  function Units(c: char): seq<int> {
    var n := c as int;
    if n < 0x10000 then [n] else [0xD800 + (n - 0x10000) / 0x400, 0xDC00 + (n - 0x10000) % 0x400]
  }

  function Utf16(s: string): seq<int> {
    if s == "" then [] else Units(s[0]) + Utf16(s[1..])
  }

  predicate UnitsLe(x: seq<int>, y: seq<int>) {
    if x == [] then true
    else if y == [] then false
    else x[0] < y[0] || (x[0] == y[0] && UnitsLe(x[1..], y[1..]))
  }

  predicate Utf16Le(a: string, b: string) { UnitsLe(Utf16(a), Utf16(b)) }

  /** One character needs a surrogate pair, the other lies above the surrogates without needing one. */
  predicate Swap(c: char, d: char) {
    (0xE000 <= c as int < 0x10000 <= d as int) || (0xE000 <= d as int < 0x10000 <= c as int)
  }

  /** Where the texts first differ, such a pair of characters stands. */
  ghost predicate SwapAt(a: string, b: string, i: nat) {
    i < |a| && i < |b| && a[..i] == b[..i] && Swap(a[i], b[i])
  }

  ghost predicate Swapped(a: string, b: string) { exists i: nat :: SwapAt(a, b, i) }

  lemma UnitsLeSteps(c: char, x: seq<int>, d: char, y: seq<int>)
    ensures c == d ==> (UnitsLe(Units(c) + x, Units(d) + y) <==> UnitsLe(x, y))
    ensures c != d ==> (UnitsLe(Units(c) + x, Units(d) + y) <==> (c < d <==> !Swap(c, d)))
  {
    var p, q := Units(c) + x, Units(d) + y;
    if c as int < 0x10000 { assert p[1..] == x; } else { assert p[1..][1..] == x; }
    if d as int < 0x10000 { assert q[1..] == y; } else { assert q[1..][1..] == y; }
  }

  lemma SwapLater(a: string, b: string)
    requires a != "" && b != "" && a[0] == b[0]
    ensures Swapped(a, b) <==> Swapped(a[1..], b[1..])
  {
    if Swapped(a, b) {
      var i: nat :| SwapAt(a, b, i);
      assert a[1..][..i - 1] == a[..i][1..] && b[1..][..i - 1] == b[..i][1..];
      assert SwapAt(a[1..], b[1..], i - 1);
    }
    if Swapped(a[1..], b[1..]) {
      var i: nat :| SwapAt(a[1..], b[1..], i);
      assert a[..i + 1] == [a[0]] + a[1..][..i] && b[..i + 1] == [b[0]] + b[1..][..i];
      assert SwapAt(a, b, i + 1);
    }
  }

  /** The two orders disagree on two texts exactly when these first differ in a character beyond
      U+FFFF against one from U+E000 to U+FFFF. */
  lemma {:induction false} OrdersDisagree(a: string, b: string)
    ensures (TextLe(a, b) <==> Utf16Le(a, b)) <==> !Swapped(a, b)
  {
    hide Units, Swap;
    if a == "" || b == "" {
      if a != "" { EncodesSomething(a); }
      if b != "" { EncodesSomething(b); }
    } else if a[0] == b[0] {
      UnitsLeSteps(a[0], Utf16(a[1..]), b[0], Utf16(b[1..]));
      SwapLater(a, b);
      OrdersDisagree(a[1..], b[1..]);
    } else {
      UnitsLeSteps(a[0], Utf16(a[1..]), b[0], Utf16(b[1..]));
      SwapFirst(a, b);
    }
  }

  lemma SwapFirst(a: string, b: string)
    requires a != "" && b != "" && a[0] != b[0]
    ensures Swapped(a, b) <==> Swap(a[0], b[0])
  {
    assert a[..0] == b[..0];
    forall i: nat | 0 < i <= |a| && i <= |b| ensures a[..i] != b[..i] {
      assert a[..i][0] != b[..i][0];
    }
    if Swap(a[0], b[0]) { assert SwapAt(a, b, 0); }
  }

  lemma EncodesSomething(s: string)
    requires s != ""
    ensures Utf16(s) != []
  {
  }

  /** The keys of an object's canonical text are also in UTF-16 order exactly when no two of them
      are such a pair. */
  lemma TextIsInUtf16Order(j: Json)
    requires j.Obj?
    ensures KeysIn(Dump(j)).Some?
    ensures
      var keys := KeysIn(Dump(j)).value;
      (forall m, n :: 0 <= m < n < |keys| ==> Utf16Le(keys[m], keys[n]))
      <==> (forall a, b :: a in j.fields && b in j.fields ==> !Swapped(a, b))
  {
    hide Dump, KeysIn, Swapped, Utf16Le, TextLe;
    KeysAreOrderedByCodePoint(j);
    var keys := KeysIn(Dump(j)).value;
    forall m, n | 0 <= m < n < |keys| ensures Utf16Le(keys[m], keys[n]) <==> !Swapped(keys[m], keys[n]) {
      OrdersDisagree(keys[m], keys[n]);
    }
    if forall m, n :: 0 <= m < n < |keys| ==> Utf16Le(keys[m], keys[n]) {
      forall a, b | a in j.fields && b in j.fields ensures !Swapped(a, b) {
        var m :| 0 <= m < |keys| && keys[m] == a;
        var n :| 0 <= n < |keys| && keys[n] == b;
        SwapSymmetric(a, b);
        SwapIrreflexive(a);
        if n < m { assert Utf16Le(keys[n], keys[m]); }
      }
    } else {
      var m, n :| 0 <= m < n < |keys| && !Utf16Le(keys[m], keys[n]);
      assert keys[m] in keys && keys[n] in keys;
      assert Swapped(keys[m], keys[n]);
    }
  }

  lemma SwapSymmetric(a: string, b: string)
    ensures Swapped(a, b) <==> Swapped(b, a)
  {
    if Swapped(a, b) { var i: nat :| SwapAt(a, b, i); assert SwapAt(b, a, i); }
    if Swapped(b, a) { var i: nat :| SwapAt(b, a, i); assert SwapAt(a, b, i); }
  }

  lemma SwapIrreflexive(a: string)
    ensures !Swapped(a, a)
  {
  }
}
