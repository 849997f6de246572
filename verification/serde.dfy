/** Events, their stored records and the text each chain hash is taken over. */
module Serde {
  import opened Wrappers
  import opened Orders
  import opened CanonicalJson

  // ------------------------------------------------------------------
  // Payload values and the adapter that makes them JSON

  /** A Python payload value.  `Textual` stands for the values whose adapter is their text
      (decimals, dates, date-times); a dictionary is the list of its entries in insertion
      order; `Opaque` is any value without an adapter. */
  datatype Value =
    | NoValue
    | Truth(b: bool)
    | Number(n: int)
    | Text(s: string)
    | Textual(text: string)
    | TextSet(texts: set<string>)
    | NumberSet(numbers: set<int>)
    | List(items: seq<Value>)
    | Dict(entries: seq<Entry>)
    | Opaque

  datatype Entry = Entry(key: string, value: Value)

  function Strings(texts: seq<string>): seq<Json> { seq(|texts|, i requires 0 <= i < |texts| => Str(texts[i])) }

  function Ints(numbers: seq<int>): seq<Json> { seq(|numbers|, i requires 0 <= i < |numbers| => Int(numbers[i])) }

  /** `json.loads(encode_payload(value))`; `None` stands for `NonSerializableEventError`. */
  function Adapt(v: Value): Option<Json>
    decreases v
  {
    match v
    case NoValue => Some(Null)
    case Truth(b) => Some(Bool(b))
    case Number(n) => Some(Int(n))
    case Text(s) => Some(Str(s))
    case Textual(text) => Some(Str(text))
    case TextSet(texts) => Some(Arr(Strings(SortedTexts(texts))))
    case NumberSet(numbers) => Some(Arr(Ints(SortedInts(numbers))))
    case List(items) =>
      var adapted :- AdaptItems(items);
      Some(Arr(adapted))
    case Dict(entries) =>
      var adapted :- AdaptEntries(entries);
      Some(Obj(adapted))
    case Opaque => None
  }

  function AdaptItems(items: seq<Value>): (r: Option<seq<Json>>)
    ensures r.Some? <==> forall i :: 0 <= i < |items| ==> Adapt(items[i]).Some?
    ensures r.Some? ==> |r.value| == |items| && forall i :: 0 <= i < |items| ==> r.value[i] == Adapt(items[i]).value
    decreases items
  {
    if items == [] then Some([])
    else
      var rest := AdaptItems(items[1..]);
      assert forall i :: 0 <= i < |items| - 1 ==> items[1..][i] == items[i + 1];
      if Adapt(items[0]).Some? && rest.Some? then Some([Adapt(items[0]).value] + rest.value) else None
  }

  function KeysOf(entries: seq<Entry>): set<string> { set e <- entries :: e.key }

  ghost predicate UniqueKeys(entries: seq<Entry>) {
    forall i, j :: 0 <= i < j < |entries| ==> entries[i].key != entries[j].key
  }

  /** A repeated key would keep its last value. */
  function AdaptEntries(entries: seq<Entry>): (r: Option<map<string, Json>>)
    decreases entries
  {
    if entries == [] then Some(map[])
    else
      var first :- Adapt(entries[0].value);
      var rest :- AdaptEntries(entries[1..]);
      Some(map[entries[0].key := first] + rest)
  }

  lemma {:induction false} AdaptsKeys(entries: seq<Entry>)
    ensures AdaptEntries(entries).Some? <==> forall e <- entries :: Adapt(e.value).Some?
    ensures AdaptEntries(entries).Some? ==> AdaptEntries(entries).value.Keys == KeysOf(entries)
  {
    if entries != [] {
      AdaptsKeys(entries[1..]);
      assert entries == [entries[0]] + entries[1..];
      assert KeysOf(entries) == {entries[0].key} + KeysOf(entries[1..]);
    }
  }

  lemma {:induction false} AdaptsEntry(entries: seq<Entry>, i: nat)
    requires i < |entries| && UniqueKeys(entries) && AdaptEntries(entries).Some?
    ensures entries[i].key in AdaptEntries(entries).value
    ensures Some(AdaptEntries(entries).value[entries[i].key]) == Adapt(entries[i].value)
  {
    var tail := entries[1..];
    if i > 0 {
      assert tail[i - 1] == entries[i];
      AdaptsEntry(tail, i - 1);
    } else {
      AdaptsKeys(tail);
      assert entries[0].key !in KeysOf(tail) by {
        assert forall e <- tail :: exists j :: 0 < j < |entries| && entries[j] == e;
      }
    }
  }

  lemma AdaptsEntries(entries: seq<Entry>)
    ensures AdaptEntries(entries).Some? <==> forall e <- entries :: Adapt(e.value).Some?
    ensures AdaptEntries(entries).Some? ==> AdaptEntries(entries).value.Keys == KeysOf(entries)
    ensures AdaptEntries(entries).Some? && UniqueKeys(entries) ==>
      forall e <- entries :: AdaptEntries(entries).value[e.key] == Adapt(e.value).value
  {
    AdaptsKeys(entries);
    if AdaptEntries(entries).Some? && UniqueKeys(entries) {
      forall e <- entries ensures AdaptEntries(entries).value[e.key] == Adapt(e.value).value {
        var i :| 0 <= i < |entries| && entries[i] == e;
        AdaptsEntry(entries, i);
      }
    }
  }

  /** The Python value `json.loads` builds: a dictionary filled in the order of the text. */
  function Embed(j: Json): Value
    decreases j, 0
  {
    match j
    case Null => NoValue
    case Bool(b) => Truth(b)
    case Int(n) => Number(n)
    case Str(s) => Text(s)
    case Arr(items) => List(seq(|items|, i requires 0 <= i < |items| => Embed(items[i])))
    case Obj(fields) =>
      var keys := SortedTexts(fields.Keys);
      Dict(seq(|keys|, i requires 0 <= i < |keys| =>
        assert keys[i] in keys;
        Entry(keys[i], Embed(fields[keys[i]]))))
  }

  lemma KeysOfListed(entries: seq<Entry>, keys: seq<string>)
    requires |entries| == |keys| && forall i :: 0 <= i < |keys| ==> entries[i].key == keys[i]
    ensures KeysOf(entries) == set k <- keys
  {
    forall k <- keys ensures k in KeysOf(entries) {
      var i :| 0 <= i < |keys| && keys[i] == k;
      assert entries[i] in entries;
    }
  }

  /** Adapting a decoded value changes nothing. */
  lemma {:induction false} AdaptEmbed(j: Json)
    ensures Adapt(Embed(j)) == Some(j)
    decreases j, 1
  {
    if j.Arr? {
      AdaptEmbedItems(j);
    } else if j.Obj? {
      AdaptEmbedFields(j);
    }
  }

  lemma {:induction false} AdaptEmbedItems(j: Json)
    requires j.Arr?
    ensures Adapt(Embed(j)) == Some(j)
    decreases j, 0
  {
    forall i | 0 <= i < |j.items| ensures Adapt(Embed(j).items[i]) == Some(j.items[i]) {
      AdaptEmbed(j.items[i]);
    }
    assert AdaptItems(Embed(j).items).value == j.items;
  }

  lemma {:induction false} AdaptEmbedFields(j: Json)
    requires j.Obj?
    ensures Adapt(Embed(j)) == Some(j)
    decreases j, 0
  {
    hide AdaptEntries, SortedTexts;
    var keys := SortedTexts(j.fields.Keys);
    var entries := Embed(j).entries;
    forall i | 0 <= i < |keys|
      ensures keys[i] in j.fields && entries[i].key == keys[i]
      ensures Adapt(entries[i].value) == Some(j.fields[keys[i]])
    {
      assert keys[i] in keys;
      AdaptEmbed(j.fields[keys[i]]);
    }
    assert UniqueKeys(entries);
    KeysOfListed(entries, keys);
    AdaptsEntries(entries);
    assert AdaptEntries(entries).value == j.fields;
  }

  /** What every Python value satisfies: at no depth does a dictionary repeat a key. */
  ghost predicate UniquelyKeyed(v: Value)
    decreases v
  {
    match v
    case List(items) => forall i :: 0 <= i < |items| ==> UniquelyKeyed(items[i])
    case Dict(entries) => UniqueKeys(entries) && forall i :: 0 <= i < |entries| ==> UniquelyKeyed(entries[i].value)
    case _ => true
  }

  // ------------------------------------------------------------------
  // What a value's JSON is, case by case

  /** The items are the given texts, once each, in ascending order. */
  ghost predicate ListsTexts(items: seq<Json>, texts: set<string>) {
    && (forall i :: 0 <= i < |items| ==> items[i].Str? && items[i].s in texts)
    && (forall i, j :: 0 <= i < j < |items| ==> items[i].s != items[j].s && TextLe(items[i].s, items[j].s))
    && (forall t <- texts :: Str(t) in items)
  }

  /** The items are the given numbers, once each, in ascending order. */
  ghost predicate ListsNumbers(items: seq<Json>, numbers: set<int>) {
    && (forall i :: 0 <= i < |items| ==> items[i].Int? && items[i].n in numbers)
    && (forall i, j :: 0 <= i < j < |items| ==> items[i].n < items[j].n)
    && (forall n <- numbers :: Int(n) in items)
  }

  ghost predicate Encodes(v: Value, j: Json)
    decreases v
  {
    match v
    case NoValue => j == Null
    case Truth(b) => j == Bool(b)
    case Number(n) => j == Int(n)
    case Text(s) => j == Str(s)
    case Textual(text) => j == Str(text)
    case TextSet(texts) => j.Arr? && ListsTexts(j.items, texts)
    case NumberSet(numbers) => j.Arr? && ListsNumbers(j.items, numbers)
    case List(items) => j.Arr? && |j.items| == |items| && forall i :: 0 <= i < |items| ==> Encodes(items[i], j.items[i])
    case Dict(entries) =>
      && j.Obj? && j.fields.Keys == KeysOf(entries)
      && forall i :: 0 <= i < |entries| ==> entries[i].key in j.fields && Encodes(entries[i].value, j.fields[entries[i].key])
    case Opaque => false
  }

  /** Somewhere in the value there is one without an adapter. */
  ghost predicate HoldsOpaque(v: Value)
    decreases v
  {
    match v
    case Opaque => true
    case List(items) => exists i :: 0 <= i < |items| && HoldsOpaque(items[i])
    case Dict(entries) => exists i :: 0 <= i < |entries| && HoldsOpaque(entries[i].value)
    case _ => false
  }

  lemma TextsListed(texts: set<string>, items: seq<Json>)
    ensures items == Strings(SortedTexts(texts)) <==> ListsTexts(items, texts)
  {
    hide TextLe, SortedTexts, ListsTexts;
    if items == Strings(SortedTexts(texts)) {
      SortedListsTexts(texts);
    }
    if ListsTexts(items, texts) {
      ListedTextsAreSorted(texts, items);
    }
  }

  lemma SortedListsTexts(texts: set<string>)
    ensures ListsTexts(Strings(SortedTexts(texts)), texts)
  {
    hide TextLe, SortedTexts;
    var s := SortedTexts(texts);
    assert forall i :: 0 <= i < |s| ==> s[i] in s && Strings(s)[i] == Str(s[i]);
    forall t <- texts ensures Str(t) in Strings(s) {
      var i :| 0 <= i < |s| && s[i] == t;
      assert Strings(s)[i] == Str(t);
    }
  }

  lemma ListedTextsAreSorted(texts: set<string>, items: seq<Json>)
    requires ListsTexts(items, texts)
    ensures items == Strings(SortedTexts(texts))
  {
    hide TextLe, SortedTexts;
    var s := SortedTexts(texts);
    var read := seq(|items|, i requires 0 <= i < |items| => items[i].s);
    forall t ensures t in read <==> t in s {
      if t in texts {
        var i :| 0 <= i < |items| && items[i] == Str(t);
        assert read[i] == t;
      }
    }
    TextOrder();
    AscendingUnique(read, s, TextLe);
    assert forall i :: 0 <= i < |items| ==> items[i] == Str(read[i]);
  }

  lemma NumbersListed(numbers: set<int>, items: seq<Json>)
    ensures items == Ints(SortedInts(numbers)) <==> ListsNumbers(items, numbers)
  {
    hide SortedInts, ListsNumbers;
    if items == Ints(SortedInts(numbers)) {
      SortedListsNumbers(numbers);
    }
    if ListsNumbers(items, numbers) {
      ListedNumbersAreSorted(numbers, items);
    }
  }

  lemma SortedListsNumbers(numbers: set<int>)
    ensures ListsNumbers(Ints(SortedInts(numbers)), numbers)
  {
    hide SortedInts;
    var s := SortedInts(numbers);
    assert forall i :: 0 <= i < |s| ==> s[i] in s && Ints(s)[i] == Int(s[i]);
    assert forall i, j :: 0 <= i < j < |s| ==> IntLe(s[i], s[j]);
    forall n <- numbers ensures Int(n) in Ints(s) {
      var i :| 0 <= i < |s| && s[i] == n;
      assert Ints(s)[i] == Int(n);
    }
  }

  lemma ListedNumbersAreSorted(numbers: set<int>, items: seq<Json>)
    requires ListsNumbers(items, numbers)
    ensures items == Ints(SortedInts(numbers))
  {
    hide SortedInts;
    var s := SortedInts(numbers);
    var read := seq(|items|, i requires 0 <= i < |items| => items[i].n);
    forall n ensures n in read <==> n in s {
      if n in numbers {
        var i :| 0 <= i < |items| && items[i] == Int(n);
        assert read[i] == n;
      }
    }
    AscendingUnique(read, s, IntLe);
    assert forall i :: 0 <= i < |items| ==> items[i] == Int(read[i]);
  }

  /** The adapter's result is the one JSON value that encodes the value, case by case and at every
      depth; sets become ascending arrays of their elements. */
  lemma {:induction false} AdaptEncodes(v: Value, j: Json)
    requires UniquelyKeyed(v)
    ensures Adapt(v) == Some(j) <==> Encodes(v, j)
    decreases v, 1
  {
    match v
    case TextSet(texts) => if j.Arr? { TextsListed(texts, j.items); }
    case NumberSet(numbers) => if j.Arr? { NumbersListed(numbers, j.items); }
    case List(items) =>
      if j.Arr? && |j.items| == |items| {
        forall i | 0 <= i < |items| ensures Adapt(items[i]) == Some(j.items[i]) <==> Encodes(items[i], j.items[i]) {
          AdaptEncodes(items[i], j.items[i]);
        }
        if Encodes(v, j) {
          assert AdaptItems(items).value == j.items;
        }
      }
    case Dict(_) => if j.Obj? { AdaptEncodesDict(v, j); }
    case _ =>
  }

  lemma {:induction false} AdaptEncodesDict(v: Value, j: Json)
    requires v.Dict? && j.Obj? && UniquelyKeyed(v)
    ensures Adapt(v) == Some(j) <==> Encodes(v, j)
    decreases v, 0
  {
    hide AdaptEntries, UniqueKeys;
    AdaptsEntries(v.entries);
    forall i | 0 <= i < |v.entries| && v.entries[i].key in j.fields
      ensures Adapt(v.entries[i].value) == Some(j.fields[v.entries[i].key]) <==> Encodes(v.entries[i].value, j.fields[v.entries[i].key])
    {
      AdaptEncodes(v.entries[i].value, j.fields[v.entries[i].key]);
    }
    EntriesAdaptTo(v.entries, j.fields);
  }

  lemma EntriesAdaptTo(entries: seq<Entry>, fields: map<string, Json>)
    requires UniqueKeys(entries)
    ensures AdaptEntries(entries) == Some(fields) <==>
      fields.Keys == KeysOf(entries) && forall i :: 0 <= i < |entries| ==>
        entries[i].key in fields && Adapt(entries[i].value) == Some(fields[entries[i].key])
  {
    hide Adapt, AdaptEntries, UniqueKeys;
    AdaptsEntries(entries);
    if fields.Keys == KeysOf(entries) && forall i :: 0 <= i < |entries| ==>
        entries[i].key in fields && Adapt(entries[i].value) == Some(fields[entries[i].key]) {
      var adapted := AdaptEntries(entries).value;
      forall k | k in fields ensures adapted[k] == fields[k] {
        var e :| e in entries && e.key == k;
      }
      assert adapted == fields;
    }
  }

  /** A value has no JSON exactly when something in it has no adapter. */
  lemma {:induction false} AdaptFailsOnOpaque(v: Value)
    ensures Adapt(v).None? <==> HoldsOpaque(v)
    decreases v
  {
    match v
    case List(items) =>
      forall i | 0 <= i < |items| ensures Adapt(items[i]).None? <==> HoldsOpaque(items[i]) { AdaptFailsOnOpaque(items[i]); }
    case Dict(entries) =>
      forall i | 0 <= i < |entries| ensures Adapt(entries[i].value).None? <==> HoldsOpaque(entries[i].value) {
        AdaptFailsOnOpaque(entries[i].value);
      }
      AdaptsEntries(entries);
    case _ =>
  }

  /** The canonical text of a value reads back as what encodes it; a value has none exactly when
      something in it has no adapter. */
  lemma CanonicalTextEncodes(v: Value)
    requires UniquelyKeyed(v)
    ensures CanonicalText(v).None? <==> HoldsOpaque(v)
    ensures CanonicalText(v).Some? ==>
      Loads(CanonicalText(v).value).Some? && Encodes(v, Loads(CanonicalText(v).value).value)
  {
    hide Encodes, HoldsOpaque;
    AdaptFailsOnOpaque(v);
    if CanonicalText(v).Some? {
      AdaptEncodes(v, Adapt(v).value);
      LoadsDump(Adapt(v).value);
    }
  }

  // ------------------------------------------------------------------
  // Canonical text

  function CanonicalText(v: Value): Option<string> {
    var adapted :- Adapt(v);
    Some(Dump(adapted))
  }

  /** Canonical text parses back to the adapted value, and encoding that value again gives the
      same text. */
  lemma CanonicalTextIsStable(v: Value)
    requires Adapt(v).Some?
    ensures Loads(CanonicalText(v).value) == Adapt(v)
    ensures CanonicalText(Embed(Adapt(v).value)) == CanonicalText(v)
  {
    LoadsDump(Adapt(v).value);
    AdaptEmbed(Adapt(v).value);
  }

  /** Sameness of values: equal in kind and content, dictionaries at every depth as mappings. */
  ghost predicate SameValue(v: Value, w: Value)
    decreases v
  {
    if v.List? && w.List? then
      && |v.items| == |w.items|
      && forall i :: 0 <= i < |v.items| ==> SameValue(v.items[i], w.items[i])
    else if v.Dict? && w.Dict? then
      && KeysOf(v.entries) == KeysOf(w.entries)
      && forall i, j :: 0 <= i < |v.entries| && 0 <= j < |w.entries| && v.entries[i].key == w.entries[j].key ==>
           SameValue(v.entries[i].value, w.entries[j].value)
    else v == w
  }

  /** Every value, decimals, dates and sets included, adapts alike however the dictionaries in it
      were filled; so it has an adapter or not independently of that order. */
  lemma {:induction false} SameValueAdapts(v: Value, w: Value)
    requires UniquelyKeyed(v) && UniquelyKeyed(w) && SameValue(v, w)
    ensures Adapt(v) == Adapt(w)
    decreases v, 1
  {
    if v.List? && w.List? {
      forall i | 0 <= i < |v.items| ensures Adapt(v.items[i]) == Adapt(w.items[i]) {
        SameValueAdapts(v.items[i], w.items[i]);
      }
      if AdaptItems(v.items).Some? {
        assert AdaptItems(v.items).value == AdaptItems(w.items).value;
      }
    } else if v.Dict? && w.Dict? {
      SameDictAdapts(v, w);
    }
  }

  lemma {:induction false} SameDictAdapts(v: Value, w: Value)
    requires v.Dict? && w.Dict? && UniquelyKeyed(v) && UniquelyKeyed(w) && SameValue(v, w)
    ensures Adapt(v) == Adapt(w)
    decreases v, 0
  {
    hide AdaptEntries, UniqueKeys, KeysOf;
    forall i, j | 0 <= i < |v.entries| && 0 <= j < |w.entries| && v.entries[i].key == w.entries[j].key
      ensures Adapt(v.entries[i].value) == Adapt(w.entries[j].value)
    {
      SameValueAdapts(v.entries[i].value, w.entries[j].value);
    }
    EqualEntriesAdapt(v.entries, w.entries);
  }

  lemma EqualEntriesAdapt(a: seq<Entry>, b: seq<Entry>)
    requires UniqueKeys(a) && UniqueKeys(b) && KeysOf(a) == KeysOf(b)
    requires forall i, j :: 0 <= i < |a| && 0 <= j < |b| && a[i].key == b[j].key ==> Adapt(a[i].value) == Adapt(b[j].value)
    ensures AdaptEntries(a) == AdaptEntries(b)
  {
    hide Adapt, AdaptEntries, UniqueKeys, KeysOf;
    AdaptsEntries(a);
    AdaptsEntries(b);
    forall e <- a ensures exists f <- b :: f.key == e.key && Adapt(f.value) == Adapt(e.value) {
      PartnerEntry(a, b, e);
    }
    forall f <- b ensures exists e <- a :: e.key == f.key && Adapt(e.value) == Adapt(f.value) {
      PartnerEntry(b, a, f);
    }
    if AdaptEntries(a).Some? {
      var x, y := AdaptEntries(a).value, AdaptEntries(b).value;
      forall k | k in x ensures x[k] == y[k] {
        KeyHasEntry(a, k);
        var e :| e in a && e.key == k;
      }
      assert x == y;
    }
  }

  lemma KeyHasEntry(entries: seq<Entry>, k: string)
    requires k in KeysOf(entries)
    ensures exists e <- entries :: e.key == k
  {
  }

  lemma PartnerEntry(entries: seq<Entry>, others: seq<Entry>, e: Entry)
    requires e in entries && KeysOf(entries) == KeysOf(others)
    requires forall i, j :: 0 <= i < |entries| && 0 <= j < |others| && entries[i].key == others[j].key ==>
      Adapt(entries[i].value) == Adapt(others[j].value)
    ensures exists f <- others :: f.key == e.key && Adapt(f.value) == Adapt(e.value)
  {
    hide Adapt;
    assert e.key in KeysOf(entries);
    var f :| f in others && f.key == e.key;
    var i :| 0 <= i < |entries| && entries[i] == e;
    var j :| 0 <= j < |others| && others[j] == f;
  }

  /** The canonical text of any value is independent of the order in which its dictionaries were
      filled. */
  lemma CanonicalTextIgnoresOrder(v: Value, w: Value)
    requires UniquelyKeyed(v) && UniquelyKeyed(w) && SameValue(v, w)
    ensures CanonicalText(v) == CanonicalText(w)
  {
    SameValueAdapts(v, w);
  }

  /** A value JSON represents as itself: nothing in it is a decimal, a date, a set or opaque. */
  ghost predicate Native(v: Value)
    decreases v
  {
    match v
    case List(items) => forall i :: 0 <= i < |items| ==> Native(items[i])
    case Dict(entries) => forall i :: 0 <= i < |entries| ==> Native(entries[i].value)
    case Textual(_) => false
    case TextSet(_) => false
    case NumberSet(_) => false
    case Opaque => false
    case _ => true
  }

  lemma {:induction false} NativeAdapts(v: Value)
    requires Native(v)
    ensures Adapt(v).Some?
    decreases v
  {
    match v
    case List(items) =>
      forall i | 0 <= i < |items| ensures Adapt(items[i]).Some? { NativeAdapts(items[i]); }
    case Dict(entries) =>
      forall i | 0 <= i < |entries| ensures Adapt(entries[i].value).Some? { NativeAdapts(entries[i].value); }
      AdaptsEntries(entries);
    case _ =>
  }

  /** Native values that adapt to the same JSON are the same. */
  lemma {:induction false} AdaptSeparatesNative(v: Value, w: Value)
    requires UniquelyKeyed(v) && UniquelyKeyed(w) && Native(v) && Native(w) && Adapt(v) == Adapt(w)
    ensures SameValue(v, w)
    decreases v, 1
  {
    NativeAdapts(v);
    NativeAdapts(w);
    if v.List? && w.List? {
      forall i | 0 <= i < |v.items| ensures SameValue(v.items[i], w.items[i]) {
        assert AdaptItems(v.items).value[i] == AdaptItems(w.items).value[i];
        AdaptSeparatesNative(v.items[i], w.items[i]);
      }
    } else if v.Dict? && w.Dict? {
      AdaptSeparatesDicts(v, w);
    }
  }

  lemma {:induction false} AdaptSeparatesDicts(v: Value, w: Value)
    requires v.Dict? && w.Dict?
    requires UniquelyKeyed(v) && UniquelyKeyed(w) && Native(v) && Native(w) && Adapt(v) == Adapt(w)
    ensures SameValue(v, w)
    decreases v, 0
  {
    hide AdaptEntries, UniqueKeys;
    NativeAdapts(v);
    NativeAdapts(w);
    AdaptsEntries(v.entries);
    AdaptsEntries(w.entries);
    forall i, j | 0 <= i < |v.entries| && 0 <= j < |w.entries| && v.entries[i].key == w.entries[j].key
      ensures SameValue(v.entries[i].value, w.entries[j].value)
    {
      NativeAdapts(v.entries[i].value);
      NativeAdapts(w.entries[j].value);
      assert v.entries[i] in v.entries && w.entries[j] in w.entries;
      AdaptSeparatesNative(v.entries[i].value, w.entries[j].value);
    }
  }

  /** For native values the text is the same exactly when the values are. */
  lemma CanonicalTextIdentifiesValues(v: Value, w: Value)
    requires UniquelyKeyed(v) && UniquelyKeyed(w) && Native(v) && Native(w)
    ensures CanonicalText(v) == CanonicalText(w) <==> SameValue(v, w)
  {
    NativeAdapts(v);
    NativeAdapts(w);
    if SameValue(v, w) {
      SameValueAdapts(v, w);
    }
    if CanonicalText(v) == CanonicalText(w) {
      DumpInjective(Adapt(v).value, Adapt(w).value);
      AdaptSeparatesNative(v, w);
    }
  }

  /** Values that are not native need not be told apart: a date and its text have one encoding. */
  lemma TextualIsItsText(text: string)
    ensures CanonicalText(Textual(text)) == CanonicalText(Text(text)) && !SameValue(Textual(text), Text(text))
  {
  }

  // ------------------------------------------------------------------
  // Events

  /** An event as the caller gives it (`Event<Value>`) or as a stored row decodes (`Event<Json>`). */
  datatype Event<+P> = Event(
    id: string,
    kind: string,
    payload: P,
    actor: Option<string>,
    frameId: Option<string>,
    causedBy: Option<string>,
    timestamp: string)

  datatype EventRecord = EventRecord(
    eventId: string,
    eventType: string,
    payloadJson: string,
    actor: Option<string>,
    frameId: Option<string>,
    causedBy: Option<string>,
    timestamp: string)

  function EventToRecord(e: Event<Value>): Option<EventRecord> {
    var text :- CanonicalText(e.payload);
    Some(EventRecord(e.id, e.kind, text, e.actor, e.frameId, e.causedBy, e.timestamp))
  }

  function RecordToEvent(r: EventRecord): Option<Event<Json>> {
    var payload :- Loads(r.payloadJson);
    Some(Event(r.eventId, r.eventType, payload, r.actor, r.frameId, r.causedBy, r.timestamp))
  }

  /** The event up to canonical payload: what the log keeps of it. */
  function Canon(e: Event<Value>): Option<Event<Json>> {
    var payload :- Adapt(e.payload);
    Some(Event(e.id, e.kind, payload, e.actor, e.frameId, e.causedBy, e.timestamp))
  }

  /** An event can be stored exactly when nothing in its payload lacks an adapter; its stored payload is
      then what encodes the caller's. */
  lemma CanonEncodes(e: Event<Value>)
    ensures Canon(e).None? <==> HoldsOpaque(e.payload)
    ensures Canon(e).Some? ==>
      && Canon(e).value.id == e.id && Canon(e).value.kind == e.kind && Canon(e).value.timestamp == e.timestamp
      && Canon(e).value.actor == e.actor && Canon(e).value.frameId == e.frameId && Canon(e).value.causedBy == e.causedBy
    ensures EventToRecord(e).Some? ==>
      var r := EventToRecord(e).value;
      && r.eventId == e.id && r.eventType == e.kind && Some(r.payloadJson) == CanonicalText(e.payload) && r.timestamp == e.timestamp
      && r.actor == e.actor && r.frameId == e.frameId && r.causedBy == e.causedBy
    ensures Canon(e).Some? && UniquelyKeyed(e.payload) ==> Encodes(e.payload, Canon(e).value.payload)
  {
    hide Encodes, HoldsOpaque;
    AdaptFailsOnOpaque(e.payload);
    if Canon(e).Some? && UniquelyKeyed(e.payload) {
      AdaptEncodes(e.payload, Canon(e).value.payload);
    }
  }

  /** A decoded event, as a Python value that can be appended again. */
  function Thawed(e: Event<Json>): Event<Value> {
    Event(e.id, e.kind, Embed(e.payload), e.actor, e.frameId, e.causedBy, e.timestamp)
  }

  function Record(e: Event<Json>): EventRecord {
    EventRecord(e.id, e.kind, Dump(e.payload), e.actor, e.frameId, e.causedBy, e.timestamp)
  }

  /** Storing and decoding an event yields its canonical form, and storing that changes nothing. */
  lemma EventRoundTrip(e: Event<Value>)
    ensures EventToRecord(e).Some? <==> Canon(e).Some?
    ensures EventToRecord(e).Some? ==>
      && RecordToEvent(EventToRecord(e).value) == Canon(e)
      && EventToRecord(Thawed(Canon(e).value)) == EventToRecord(e) == Some(Record(Canon(e).value))
  {
    if Adapt(e.payload).Some? {
      CanonicalTextIsStable(e.payload);
    }
  }

  lemma RecordReadsBack(e: Event<Json>)
    ensures RecordToEvent(Record(e)) == Some(e)
    ensures Canon(Thawed(e)) == Some(e)
  {
    LoadsDump(e.payload);
    AdaptEmbed(e.payload);
  }

  // ------------------------------------------------------------------
  // Hash preimages

  function OptionalText(t: Option<string>): Value {
    match t
    case None => NoValue
    case Some(s) => Text(s)
  }

  /** The dictionary `event_hash` encodes. */
  function PreimageEntries(scope: string, runId: string, position: int, e: Event<Value>, previous: Option<string>): seq<Entry> {
    [ Entry("scope", Text(scope)),
      Entry("run_id", Text(runId)),
      Entry("seq", Number(position)),
      Entry("id", Text(e.id)),
      Entry("type", Text(e.kind)),
      Entry("payload", e.payload),
      Entry("actor", OptionalText(e.actor)),
      Entry("frame_id", OptionalText(e.frameId)),
      Entry("caused_by", OptionalText(e.causedBy)),
      Entry("timestamp", Text(e.timestamp)),
      Entry("previous_hash", OptionalText(previous)) ]
  }

  function Preimage(scope: string, runId: string, position: int, e: Event<Value>, previous: Option<string>): Option<string> {
    CanonicalText(Dict(PreimageEntries(scope, runId, position, e, previous)))
  }

  lemma {:induction false} SameAdaptedEntries(a: seq<Entry>, b: seq<Entry>)
    requires |a| == |b|
    requires forall i :: 0 <= i < |a| ==> a[i].key == b[i].key && Adapt(a[i].value) == Adapt(b[i].value)
    ensures AdaptEntries(a) == AdaptEntries(b)
  {
    if a != [] {
      SameAdaptedEntries(a[1..], b[1..]);
    }
  }

  const PREIMAGE_KEYS: seq<string> :=
    ["scope", "run_id", "seq", "id", "type", "payload", "actor", "frame_id", "caused_by", "timestamp", "previous_hash"]

  lemma PreimageKeysAreUnique(scope: string, runId: string, position: int, e: Event<Value>, previous: Option<string>)
    ensures |PreimageEntries(scope, runId, position, e, previous)| == |PREIMAGE_KEYS| == 11
    ensures forall i :: 0 <= i < 11 ==> PreimageEntries(scope, runId, position, e, previous)[i].key == PREIMAGE_KEYS[i]
    ensures UniqueKeys(PreimageEntries(scope, runId, position, e, previous))
  {
    var entries := PreimageEntries(scope, runId, position, e, previous);
    assert entries[0].key[0] == 's' && entries[6].key[0] == 'a';
    assert entries[8].key[0] == 'c' && entries[9].key[0] == 't';
    assert forall i, j :: 0 <= i < j < |entries| ==>
      |entries[i].key| != |entries[j].key| || entries[i].key[0] != entries[j].key[0];
  }

  lemma PreimageAdapts(scope: string, runId: string, position: int, e: Event<Json>, previous: Option<string>)
    ensures AdaptEntries(PreimageEntries(scope, runId, position, Thawed(e), previous)).Some?
  {
    hide AdaptEntries;
    AdaptEmbed(e.payload);
    var entries := PreimageEntries(scope, runId, position, Thawed(e), previous);
    assert forall e <- entries :: Adapt(e.value).Some?;
    AdaptsKeys(entries);
  }

  function PreimageJson(scope: string, runId: string, position: int, e: Event<Json>, previous: Option<string>): (r: Json)
    ensures r.Obj? && Adapt(Dict(PreimageEntries(scope, runId, position, Thawed(e), previous))) == Some(r)
  {
    var entries := PreimageEntries(scope, runId, position, Thawed(e), previous);
    PreimageAdapts(scope, runId, position, e, previous);
    Obj(AdaptEntries(entries).value)
  }

  /** The text hashed when the stored event is verified. */
  function StoredPreimage(scope: string, runId: string, position: int, e: Event<Json>, previous: Option<string>): string {
    Dump(PreimageJson(scope, runId, position, e, previous))
  }

  function TextOrNull(t: Option<string>): Json { if t.Some? then Str(t.value) else Null }

  ghost predicate Field(j: Json, key: string, value: Json) { j.Obj? && key in j.fields && j.fields[key] == value }

  /** The hashed text reads back as one object with eleven fields, each under its own name. */
  lemma PreimageReads(scope: string, runId: string, position: int, e: Event<Json>, previous: Option<string>)
    ensures
      var r := Loads(StoredPreimage(scope, runId, position, e, previous));
      && r.Some? && r.value.Obj? && r.value.fields.Keys == (set k <- PREIMAGE_KEYS)
      && Field(r.value, "scope", Str(scope)) && Field(r.value, "run_id", Str(runId)) && Field(r.value, "seq", Int(position))
      && Field(r.value, "id", Str(e.id)) && Field(r.value, "type", Str(e.kind)) && Field(r.value, "payload", e.payload)
      && Field(r.value, "actor", TextOrNull(e.actor)) && Field(r.value, "frame_id", TextOrNull(e.frameId))
      && Field(r.value, "caused_by", TextOrNull(e.causedBy)) && Field(r.value, "timestamp", Str(e.timestamp))
      && Field(r.value, "previous_hash", TextOrNull(previous))
  {
    hide AdaptEntries, UniqueKeys, Dump, Loads, PreimageEntries, Embed, Adapt, Field, TextOrNull, PreimageJson;
    LoadsDump(PreimageJson(scope, runId, position, e, previous));
    PreimageEntriesHeld(scope, runId, position, e, previous);
    PreimageValues(scope, runId, position, e, previous);
    PreimageNames(scope, runId, position, Thawed(e), previous);
  }

  lemma PreimageNames(scope: string, runId: string, position: int, e: Event<Value>, previous: Option<string>)
    ensures
      var entries := PreimageEntries(scope, runId, position, e, previous);
      && |entries| == 11
      && entries[0].key == "scope" && entries[1].key == "run_id" && entries[2].key == "seq" && entries[3].key == "id"
      && entries[4].key == "type" && entries[5].key == "payload" && entries[6].key == "actor" && entries[7].key == "frame_id"
      && entries[8].key == "caused_by" && entries[9].key == "timestamp" && entries[10].key == "previous_hash"
  {
    hide OptionalText;
  }

  lemma PreimageEntriesHeld(scope: string, runId: string, position: int, e: Event<Json>, previous: Option<string>)
    ensures
      var j, entries := PreimageJson(scope, runId, position, e, previous), PreimageEntries(scope, runId, position, Thawed(e), previous);
      && |entries| == 11 && j.fields.Keys == (set k <- PREIMAGE_KEYS)
      && forall i :: 0 <= i < 11 ==> Adapt(entries[i].value).Some? && Field(j, entries[i].key, Adapt(entries[i].value).value)
  {
    hide AdaptEntries, UniqueKeys, PreimageEntries, Adapt;
    var entries := PreimageEntries(scope, runId, position, Thawed(e), previous);
    PreimageKeysAreUnique(scope, runId, position, Thawed(e), previous);
    PreimageAdapts(scope, runId, position, e, previous);
    AdaptsEntries(entries);
    KeysOfListed(entries, PREIMAGE_KEYS);
    assert forall i :: 0 <= i < 11 ==> entries[i] in entries;
  }

  lemma PreimageValues(scope: string, runId: string, position: int, e: Event<Json>, previous: Option<string>)
    ensures
      var entries := PreimageEntries(scope, runId, position, Thawed(e), previous);
      && |entries| == 11
      && Adapt(entries[0].value) == Some(Str(scope)) && Adapt(entries[1].value) == Some(Str(runId))
      && Adapt(entries[2].value) == Some(Int(position)) && Adapt(entries[3].value) == Some(Str(e.id))
      && Adapt(entries[4].value) == Some(Str(e.kind)) && Adapt(entries[5].value) == Some(e.payload)
      && Adapt(entries[6].value) == Some(TextOrNull(e.actor)) && Adapt(entries[7].value) == Some(TextOrNull(e.frameId))
      && Adapt(entries[8].value) == Some(TextOrNull(e.causedBy)) && Adapt(entries[9].value) == Some(Str(e.timestamp))
      && Adapt(entries[10].value) == Some(TextOrNull(previous))
  {
    hide Embed;
    AdaptEmbed(e.payload);
  }

  lemma SameAdaptedPreimage(scope: string, runId: string, position: int, e: Event<Value>, previous: Option<string>)
    requires Canon(e).Some?
    ensures
      var a := PreimageEntries(scope, runId, position, e, previous);
      var b := PreimageEntries(scope, runId, position, Thawed(Canon(e).value), previous);
      |a| == |b| && forall i :: 0 <= i < |a| ==> a[i].key == b[i].key && Adapt(a[i].value) == Adapt(b[i].value)
  {
    AdaptEmbed(Canon(e).value.payload);
  }

  /** The hash taken when an event is appended, over the caller's payload, is over the same text
      as the hash recomputed later from the decoded row. */
  lemma PreimageSurvivesStorage(scope: string, runId: string, position: int, e: Event<Value>, previous: Option<string>)
    requires Canon(e).Some?
    ensures Preimage(scope, runId, position, e, previous) == Some(StoredPreimage(scope, runId, position, Canon(e).value, previous))
  {
    hide Dump, AdaptEntries;
    SameAdaptedPreimage(scope, runId, position, e, previous);
    var a := PreimageEntries(scope, runId, position, e, previous);
    var b := PreimageEntries(scope, runId, position, Thawed(Canon(e).value), previous);
    SameAdaptedEntries(a, b);
    assert Adapt(Dict(a)) == Adapt(Dict(b));
  }

  lemma EntriesReadBack(a: seq<Entry>, b: seq<Entry>)
    requires |a| == |b| && UniqueKeys(a) && UniqueKeys(b)
    requires AdaptEntries(a).Some? && AdaptEntries(a) == AdaptEntries(b)
    requires forall i :: 0 <= i < |a| ==> a[i].key == b[i].key
    ensures forall i :: 0 <= i < |a| ==> Adapt(a[i].value) == Adapt(b[i].value)
  {
    AdaptsEntries(a);
    AdaptsEntries(b);
    forall i | 0 <= i < |a| ensures Adapt(a[i].value) == Adapt(b[i].value) {
      assert a[i] in a && b[i] in b;
      assert AdaptEntries(a).value[a[i].key] == Adapt(a[i].value).value;
    }
  }

  lemma FieldsReadBack(
      scope: string, runId: string, position: int, e: Event<Json>, previous: Option<string>,
      scope': string, runId': string, position': int, e': Event<Json>, previous': Option<string>)
    requires
      var a := PreimageEntries(scope, runId, position, Thawed(e), previous);
      var b := PreimageEntries(scope', runId', position', Thawed(e'), previous');
      forall i :: 0 <= i < 11 ==> Adapt(a[i].value) == Adapt(b[i].value)
    ensures scope == scope' && runId == runId' && position == position' && e == e' && previous == previous'
  {
    var a := PreimageEntries(scope, runId, position, Thawed(e), previous);
    var b := PreimageEntries(scope', runId', position', Thawed(e'), previous');
    AdaptEmbed(e.payload);
    AdaptEmbed(e'.payload);
    hide Embed, SortedTexts, AdaptItems, AdaptEntries;
    assert Adapt(a[0].value) == Adapt(b[0].value) && Adapt(a[1].value) == Adapt(b[1].value);
    assert Adapt(a[2].value) == Adapt(b[2].value) && Adapt(a[3].value) == Adapt(b[3].value);
    assert Adapt(a[4].value) == Adapt(b[4].value) && Adapt(a[5].value) == Adapt(b[5].value);
    assert Adapt(a[6].value) == Adapt(b[6].value) && Adapt(a[7].value) == Adapt(b[7].value);
    assert Adapt(a[8].value) == Adapt(b[8].value) && Adapt(a[9].value) == Adapt(b[9].value);
    assert Adapt(a[10].value) == Adapt(b[10].value);
  }

  /** Every field of the event, its position and the previous hash can be read off the preimage. */
  lemma PreimageInjective(
      scope: string, runId: string, position: int, e: Event<Json>, previous: Option<string>,
      scope': string, runId': string, position': int, e': Event<Json>, previous': Option<string>)
    requires StoredPreimage(scope, runId, position, e, previous) == StoredPreimage(scope', runId', position', e', previous')
    ensures scope == scope' && runId == runId' && position == position' && e == e' && previous == previous'
  {
    hide Dump, AdaptEntries, PreimageJson, PreimageEntries, PREIMAGE_KEYS;
    DumpInjective(PreimageJson(scope, runId, position, e, previous), PreimageJson(scope', runId', position', e', previous'));
    PreimageKeysAreUnique(scope, runId, position, Thawed(e), previous);
    PreimageKeysAreUnique(scope', runId', position', Thawed(e'), previous');
    var a := PreimageEntries(scope, runId, position, Thawed(e), previous);
    var b := PreimageEntries(scope', runId', position', Thawed(e'), previous');
    assert AdaptEntries(a) == AdaptEntries(b);
    EntriesReadBack(a, b);
    FieldsReadBack(scope, runId, position, e, previous, scope', runId', position', e', previous');
  }
}
