/** Overlaying an environment: a list of NAME=VALUE entries, rewritten in place by a list of
    overrides. */
module Environment {
  import opened Wrappers

  type Entry = string
  datatype Override = Override(key: string, value: string)

  const SEPARATOR: char := '='

  /** The entry sets this key. */
  predicate HasKey(entry: Entry, key: string) {
    |entry| > |key| && key <= entry && entry[|key|] == SEPARATOR
  }

  function EntryOf(o: Override): Entry {
    o.key + [SEPARATOR] + o.value
  }

  /** The entries that do not set the key, in order. */
  function Without(entries: seq<Entry>, key: string): seq<Entry> {
    if entries == [] then []
    else
      var last := entries[|entries| - 1];
      Without(entries[..|entries| - 1], key) + if HasKey(last, key) then [] else [last]
  }

  /** std::erase_if: one pass that keeps what does not match. */
  method EraseKey(entries: seq<Entry>, key: string) returns (kept: seq<Entry>)
    ensures kept == Without(entries, key)
  {
    kept := [];
    var next := 0;
    while next < |entries|
      invariant 0 <= next <= |entries|
      invariant kept == Without(entries[..next], key)
    {
      if !HasKey(entries[next], key) {
        kept := kept + [entries[next]];
      }
      next := next + 1;
      assert entries[..next][..next - 1] == entries[..next - 1];
    }
    assert entries[..next] == entries;
  }

  /** Some override in the list sets the entry's key. */
  predicate Touched(entry: Entry, overrides: seq<Override>) {
    exists j :: 0 <= j < |overrides| && HasKey(entry, overrides[j].key)
  }

  /** The base entries no override touches, in order. */
  function Untouched(base: seq<Entry>, overrides: seq<Override>): seq<Entry> {
    if base == [] then []
    else
      var last := base[|base| - 1];
      Untouched(base[..|base| - 1], overrides) + if Touched(last, overrides) then [] else [last]
  }

  /** The entries of the first `n` overrides that no later override touches, in order. */
  function Surviving(overrides: seq<Override>, n: nat): seq<Entry>
    requires n <= |overrides|
  {
    if n == 0 then []
    else
      var entry := EntryOf(overrides[n - 1]);
      Surviving(overrides, n - 1) + if Touched(entry, overrides[n..]) then [] else [entry]
  }

  /** The closed form of the rewrite. */
  function Overlaid(base: seq<Entry>, overrides: seq<Override>): seq<Entry> {
    Untouched(base, overrides) + Surviving(overrides, |overrides|)
  }

  // ---- The rewrite is its closed form ----

  lemma {:induction false} WithoutConcat(a: seq<Entry>, b: seq<Entry>, key: string)
    ensures Without(a + b, key) == Without(a, key) + Without(b, key)
  {
    if b == [] {
      assert a + b == a;
    } else {
      assert (a + b)[..|a + b| - 1] == a + b[..|b| - 1];
      WithoutConcat(a, b[..|b| - 1], key);
    }
  }

  lemma WithoutKept(a: seq<Entry>, entry: Entry, dropped: bool, key: string)
    ensures Without(a + if dropped then [] else [entry], key)
      == Without(a, key) + if dropped || HasKey(entry, key) then [] else [entry]
  {
    hide HasKey;
    if dropped {
      assert a + [] == a && Without(a, key) + [] == Without(a, key);
    } else {
      assert (a + [entry])[..|a|] == a;
    }
  }

  lemma TouchedPush(entry: Entry, overrides: seq<Override>, o: Override)
    ensures Touched(entry, overrides + [o]) <==> Touched(entry, overrides) || HasKey(entry, o.key)
  {
    var all := overrides + [o];
    if Touched(entry, overrides) {
      var j :| 0 <= j < |overrides| && HasKey(entry, overrides[j].key);
      assert HasKey(entry, all[j].key);
    }
    if HasKey(entry, o.key) {
      assert HasKey(entry, all[|overrides|].key);
    }
  }

  lemma {:induction false} UntouchedPush(base: seq<Entry>, overrides: seq<Override>, o: Override)
    ensures Without(Untouched(base, overrides), o.key) == Untouched(base, overrides + [o])
  {
    if base != [] {
      var front, last := base[..|base| - 1], base[|base| - 1];
      UntouchedPush(front, overrides, o);
      TouchedPush(last, overrides, o);
      WithoutKept(Untouched(front, overrides), last, Touched(last, overrides), o.key);
    }
  }

  lemma {:induction false} SurvivingPush(overrides: seq<Override>, o: Override, n: nat)
    requires n <= |overrides|
    ensures Without(Surviving(overrides, n), o.key) == Surviving(overrides + [o], n)
  {
    hide HasKey, EntryOf, Touched, Without;
    if n == 0 {
      NothingWithout(o.key);
    } else {
      var entry := EntryOf(overrides[n - 1]);
      SurvivingPush(overrides, o, n - 1);
      assert (overrides + [o])[n..] == overrides[n..] + [o];
      TouchedPush(entry, overrides[n..], o);
      WithoutKept(Surviving(overrides, n - 1), entry, Touched(entry, overrides[n..]), o.key);
    }
  }

  lemma NothingWithout(key: string)
    ensures Without([], key) == []
  {
  }

  /** One more override: erase what it touches, then append its own entry. */
  lemma OverlaidPush(base: seq<Entry>, overrides: seq<Override>, o: Override)
    ensures Without(Overlaid(base, overrides), o.key) + [EntryOf(o)] == Overlaid(base, overrides + [o])
  {
    var n := |overrides|;
    WithoutConcat(Untouched(base, overrides), Surviving(overrides, n), o.key);
    UntouchedPush(base, overrides, o);
    SurvivingPush(overrides, o, n);
    assert (overrides + [o])[n + 1..] == [];
  }

  lemma {:induction false} NothingTouched(base: seq<Entry>)
    ensures Untouched(base, []) == base
  {
    if base != [] {
      NothingTouched(base[..|base| - 1]);
    }
  }

  /** The environment handed to a child: the rewrite equals its closed form, whatever the keys are. */
  method OverlayEnvironment(base: seq<Entry>, overrides: seq<Override>) returns (environment: seq<Entry>)
    ensures environment == Overlaid(base, overrides)
    ensures forall key, j :: AllPlain(overrides) && Plain(key) && LastAt(KeysOf(overrides), key, j) ==>
      ValuesOf(environment, key) == [overrides[j].value]
    ensures forall key :: AllPlain(overrides) && Plain(key) && key !in KeysOf(overrides) ==>
      ValuesOf(environment, key) == ValuesOf(base, key)
  {
    environment := base;
    NothingTouched(base);
    var next := 0;
    while next < |overrides|
      invariant 0 <= next <= |overrides|
      invariant environment == Overlaid(base, overrides[..next])
    {
      var o := overrides[next];
      environment := EraseKey(environment, o.key);
      environment := environment + [EntryOf(o)];
      OverlaidPush(base, overrides[..next], o);
      assert overrides[..next] + [o] == overrides[..next + 1];
      next := next + 1;
    }
    assert overrides[..next] == overrides;
    hide Overlaid, ValuesOf, Plain, AllPlain;
    LookupOfOverlaid(base, overrides);
  }

  // ---- What follows ----

  lemma EntrySetsItsKey(o: Override)
    ensures HasKey(EntryOf(o), o.key)
  {
    assert EntryOf(o)[..|o.key|] == o.key;
  }

  lemma {:induction false} UntouchedConcat(a: seq<Entry>, b: seq<Entry>, overrides: seq<Override>)
    ensures Untouched(a + b, overrides) == Untouched(a, overrides) + Untouched(b, overrides)
  {
    if b == [] {
      assert a + b == a;
    } else {
      assert (a + b)[..|a + b| - 1] == a + b[..|b| - 1];
      UntouchedConcat(a, b[..|b| - 1], overrides);
    }
  }

  lemma {:induction false} UntouchedTwice(base: seq<Entry>, overrides: seq<Override>)
    ensures Untouched(Untouched(base, overrides), overrides) == Untouched(base, overrides)
  {
    if base != [] {
      var front, last := base[..|base| - 1], base[|base| - 1];
      UntouchedTwice(front, overrides);
      UntouchedConcat(Untouched(front, overrides), [last], overrides);
      assert [last][..0] == [];
      assert Untouched(front, overrides) + [] == Untouched(front, overrides);
    }
  }

  lemma {:induction false} SurvivorsAreTouched(overrides: seq<Override>, n: nat)
    requires n <= |overrides|
    ensures Untouched(Surviving(overrides, n), overrides) == []
  {
    if n > 0 {
      var entry := EntryOf(overrides[n - 1]);
      SurvivorsAreTouched(overrides, n - 1);
      EntrySetsItsKey(overrides[n - 1]);
      UntouchedConcat(Surviving(overrides, n - 1), [entry], overrides);
      assert [entry][..0] == [];
      assert Surviving(overrides, n - 1) + [] == Surviving(overrides, n - 1);
    }
  }

  /** Applying the same overrides again changes nothing, whatever the keys are. */
  lemma OverlayIsIdempotent(base: seq<Entry>, overrides: seq<Override>)
    ensures Overlaid(Overlaid(base, overrides), overrides) == Overlaid(base, overrides)
  {
    UntouchedConcat(Untouched(base, overrides), Surviving(overrides, |overrides|), overrides);
    UntouchedTwice(base, overrides);
    SurvivorsAreTouched(overrides, |overrides|);
  }

  predicate Plain(key: string) {
    SEPARATOR !in key
  }

  ghost predicate AllPlain(overrides: seq<Override>) {
    forall j :: 0 <= j < |overrides| ==> Plain(overrides[j].key)
  }

  /** Between keys without a separator, an override's entry sets its own key and no other. */
  lemma PlainKeysAreExact(o: Override, key: string)
    requires Plain(o.key) && Plain(key)
    ensures HasKey(EntryOf(o), key) <==> o.key == key
  {
    EntrySetsItsKey(o);
    OneKeyPerEntry(EntryOf(o), o.key, key);
  }

  /** Where the key is overridden last. */
  function LastOverride(overrides: seq<Override>, key: string): Option<string> {
    if overrides == [] then None
    else
      var last := overrides[|overrides| - 1];
      if last.key == key then Some(last.value) else LastOverride(overrides[..|overrides| - 1], key)
  }

  /** The entries that set the key. */
  function Setting(entries: seq<Entry>, key: string): seq<Entry> {
    if entries == [] then []
    else
      var last := entries[|entries| - 1];
      Setting(entries[..|entries| - 1], key) + if HasKey(last, key) then [last] else []
  }

  /** The key continues the other one past a separator, so that its entry sets the other one too. */
  predicate Extends(longer: string, key: string) {
    key + [SEPARATOR] <= longer
  }

  lemma ShorterKeySeparates(entry: Entry, key: string, other: string)
    requires HasKey(entry, key) && HasKey(entry, other) && |other| < |key|
    ensures !Plain(key)
  {
    assert key[|other|] == entry[|other|] == SEPARATOR;
  }

  lemma ExtendingSeparates(longer: string, key: string)
    requires Extends(longer, key)
    ensures !Plain(longer)
  {
    assert longer[|key|] == SEPARATOR;
  }

  /** An entry that sets a plain key sets no other than that and what extends it. */
  lemma OtherKeysExtend(entry: Entry, key: string, other: string)
    requires Plain(key) && HasKey(entry, key) && HasKey(entry, other)
    ensures other == key || Extends(other, key)
  {
    if |other| < |key| {
      ShorterKeySeparates(entry, key, other);
    } else if |other| == |key| {
      assert other == entry[..|key|] == key;
    } else {
      assert other[..|key| + 1] == entry[..|key| + 1] == key + [SEPARATOR];
    }
  }

  lemma ExtendingSets(o: Override, key: string)
    requires Extends(o.key, key)
    ensures HasKey(EntryOf(o), key) && |key| + 2 <= |EntryOf(o)|
  {
    assert o.key[..|key| + 1] == key + [SEPARATOR];
    assert EntryOf(o)[..|key|] == o.key[..|key|] == key;
    assert EntryOf(o)[|key|] == o.key[|key|] == SEPARATOR;
  }

  lemma SettingConcat(entries: seq<Entry>, last: Entry, key: string)
    ensures Setting(entries + [last], key) == Setting(entries, key) + if HasKey(last, key) then [last] else []
  {
    assert (entries + [last])[..|entries|] == entries;
  }

  lemma {:induction false} ErasedIsUnset(entries: seq<Entry>, key: string)
    ensures Setting(Without(entries, key), key) == []
  {
    if entries != [] {
      var front, last := entries[..|entries| - 1], entries[|entries| - 1];
      ErasedIsUnset(front, key);
      if HasKey(last, key) {
        assert Without(front, key) + [] == Without(front, key);
      } else {
        SettingConcat(Without(front, key), last, key);
      }
    }
  }

  lemma {:induction false} OthersKeepSetting(entries: seq<Entry>, erased: string, key: string)
    requires Plain(key) && erased != key && !Extends(erased, key)
    ensures Setting(Without(entries, erased), key) == Setting(entries, key)
  {
    if entries != [] {
      var front, last := entries[..|entries| - 1], entries[|entries| - 1];
      OthersKeepSetting(front, erased, key);
      if HasKey(last, erased) {
        if HasKey(last, key) { OtherKeysExtend(last, key, erased); }
        assert Without(front, erased) + [] == Without(front, erased);
      } else {
        SettingConcat(Without(front, erased), last, key);
      }
    }
  }

  /** An override of another key, that does not extend this one either, leaves what sets this one alone. */
  lemma OthersLeaveAlone(entries: seq<Entry>, o: Override, key: string)
    requires Plain(key) && o.key != key && !Extends(o.key, key)
    ensures Setting(Without(entries, o.key) + [EntryOf(o)], key) == Setting(entries, key)
  {
    OthersKeepSetting(entries, o.key, key);
    SettingConcat(Without(entries, o.key), EntryOf(o), key);
    EntrySetsItsKey(o);
    if HasKey(EntryOf(o), key) { OtherKeysExtend(EntryOf(o), key, o.key); }
  }

  function KeysOf(overrides: seq<Override>): (keys: seq<string>)
    ensures |keys| == |overrides|
  {
    seq(|overrides|, i requires 0 <= i < |overrides| => overrides[i].key)
  }

  /** The keys overridden after the last override of this one: all of them, if there is none. */
  function After(keys: seq<string>, key: string): seq<string> {
    if keys == [] || keys[|keys| - 1] == key then []
    else After(keys[..|keys| - 1], key) + [keys[|keys| - 1]]
  }

  /** No key overridden later extends this one. */
  predicate NoneExtends(keys: seq<string>, key: string) {
    forall j :: 0 <= j < |After(keys, key)| ==> !Extends(After(keys, key)[j], key)
  }

  /** What sets the key if overriding means what it says: its last override, else the base. */
  function Expected(base: seq<Entry>, overrides: seq<Override>, key: string): seq<Entry> {
    var last := LastOverride(overrides, key);
    if last.Some? then [EntryOf(Override(key, last.value))] else Setting(base, key)
  }

  lemma NoneExtendsFront(keys: seq<string>, key: string)
    requires keys != [] && keys[|keys| - 1] != key
    ensures NoneExtends(keys, key) <==> NoneExtends(keys[..|keys| - 1], key) && !Extends(keys[|keys| - 1], key)
  {
    var front, last := keys[..|keys| - 1], keys[|keys| - 1];
    var all, before := After(keys, key), After(front, key);
    assert all == before + [last] && all[|before|] == last;
    assert forall j :: 0 <= j < |before| ==> all[j] == before[j];
  }

  lemma {:induction false} UnextendedIsExpected(base: seq<Entry>, overrides: seq<Override>, key: string)
    requires Plain(key) && NoneExtends(KeysOf(overrides), key)
    ensures Setting(Overlaid(base, overrides), key) == Expected(base, overrides, key)
  {
    if overrides == [] {
      NothingTouched(base);
      assert base + [] == base;
    } else {
      var front, o := overrides[..|overrides| - 1], overrides[|overrides| - 1];
      assert front + [o] == overrides && KeysOf(overrides)[..|front|] == KeysOf(front);
      OverlaidPush(base, front, o);
      if o.key == key {
        ErasedIsUnset(Overlaid(base, front), key);
        SettingConcat(Without(Overlaid(base, front), key), EntryOf(o), key);
        EntrySetsItsKey(o);
      } else {
        NoneExtendsFront(KeysOf(overrides), key);
        UnextendedIsExpected(base, front, key);
        OthersLeaveAlone(Overlaid(base, front), o, key);
      }
    }
  }

  /** A later key that extends this one leaves an entry that sets this one to more than nothing. */
  lemma {:induction false} ExtendedIsSetTwice(base: seq<Entry>, overrides: seq<Override>, key: string) returns (entry: Entry)
    requires Plain(key) && !NoneExtends(KeysOf(overrides), key)
    ensures entry in Setting(Overlaid(base, overrides), key) && |key| + 2 <= |entry|
  {
    var front, o := overrides[..|overrides| - 1], overrides[|overrides| - 1];
    assert front + [o] == overrides && KeysOf(overrides)[..|front|] == KeysOf(front);
    OverlaidPush(base, front, o);
    NoneExtendsFront(KeysOf(overrides), key);
    if Extends(o.key, key) {
      entry := EntryOf(o);
      ExtendingSets(o, key);
      SettingConcat(Without(Overlaid(base, front), o.key), entry, key);
    } else {
      entry := ExtendedIsSetTwice(base, front, key);
      OthersLeaveAlone(Overlaid(base, front), o, key);
    }
  }

  function Zipped(keys: seq<string>, values: seq<string>): seq<Override>
    requires |keys| == |values|
  {
    seq(|keys|, i requires 0 <= i < |keys| => Override(keys[i], values[i]))
  }

  ghost predicate AsExpected(base: seq<Entry>, keys: seq<string>, values: seq<string>, key: string)
    requires |keys| == |values|
  {
    Setting(Overlaid(base, Zipped(keys, values)), key) == Expected(base, Zipped(keys, values), key)
  }

  lemma {:induction false} EmptyValues(overrides: seq<Override>, key: string)
    requires forall j :: 0 <= j < |overrides| ==> overrides[j].value == ""
    ensures LastOverride(overrides, key).Some? ==> LastOverride(overrides, key).value == ""
  {
    if overrides != [] { EmptyValues(overrides[..|overrides| - 1], key); }
  }

  /** Exactly which lists of keys override a plain key as they should, whatever the base and the values are:
      those with no key, after the last override of this one, that continues it past a separator. */
  lemma OverrideHoldsExactly(keys: seq<string>, key: string)
    requires Plain(key)
    ensures (forall base, values :: |values| == |keys| ==> AsExpected(base, keys, values, key)) <==> NoneExtends(keys, key)
  {
    if NoneExtends(keys, key) {
      forall base, values | |values| == |keys|
        ensures AsExpected(base, keys, values, key)
      {
        assert KeysOf(Zipped(keys, values)) == keys;
        UnextendedIsExpected(base, Zipped(keys, values), key);
      }
    } else {
      var base: seq<Entry>, values := [], seq(|keys|, _ => "");
      var overrides := Zipped(keys, values);
      assert KeysOf(overrides) == keys;
      var entry := ExtendedIsSetTwice(base, overrides, key);
      EmptyValues(overrides, key);
      assert entry !in Expected(base, overrides, key);
      assert !AsExpected(base, keys, values, key);
    }
  }

  lemma OneKeyPerEntry(entry: Entry, a: string, b: string)
    requires Plain(a) && Plain(b) && HasKey(entry, a)
    ensures HasKey(entry, b) <==> a == b
  {
    if HasKey(entry, b) && |a| == |b| {
      assert a == entry[..|a|] == b;
    }
  }

  lemma {:induction false} AfterAmong(keys: seq<string>, key: string)
    ensures forall j :: 0 <= j < |After(keys, key)| ==> After(keys, key)[j] in keys
  {
    if keys != [] && keys[|keys| - 1] != key { AfterAmong(keys[..|keys| - 1], key); }
  }

  /** With keys without a separator, the environment sets an overridden key exactly once, to its last
      override, and every other key exactly as the base does. */
  lemma LastOverrideWins(base: seq<Entry>, overrides: seq<Override>, key: string)
    requires AllPlain(overrides) && Plain(key)
    ensures var last := LastOverride(overrides, key);
      Setting(Overlaid(base, overrides), key)
        == if last.Some? then [EntryOf(Override(key, last.value))] else Setting(base, key)
  {
    var keys := KeysOf(overrides);
    AfterAmong(keys, key);
    forall j | 0 <= j < |After(keys, key)|
      ensures !Extends(After(keys, key)[j], key)
    {
      var i :| 0 <= i < |keys| && keys[i] == After(keys, key)[j];
      assert Plain(overrides[i].key);
      if Extends(keys[i], key) { ExtendingSeparates(keys[i], key); }
    }
    UnextendedIsExpected(base, overrides, key);
  }

  // ---- What the child reads ----

  /** What the entries set the key to, in order: everything after the key and the separator. */
  function ValuesOf(entries: seq<Entry>, key: string): seq<string> {
    if entries == [] then []
    else
      var last := entries[|entries| - 1];
      ValuesOf(entries[..|entries| - 1], key)
        + if |key| < |last| && last[..|key|] == key && last[|key|] == SEPARATOR then [last[|key| + 1..]] else []
  }

  /** The index of the last override of the key. */
  ghost predicate LastAt(keys: seq<string>, key: string, j: int) {
    0 <= j < |keys| && keys[j] == key && forall i :: j < i < |keys| ==> keys[i] != key
  }

  function Tails(entries: seq<Entry>, n: nat): seq<string> {
    seq(|entries|, i requires 0 <= i < |entries| => if n < |entries[i]| then entries[i][n + 1..] else "")
  }

  lemma {:induction false} ValuesOfSetting(entries: seq<Entry>, key: string)
    ensures ValuesOf(entries, key) == Tails(Setting(entries, key), |key|)
  {
    if entries != [] {
      var front, last := entries[..|entries| - 1], entries[|entries| - 1];
      ValuesOfSetting(front, key);
      assert HasKey(last, key) <==> |key| < |last| && last[..|key|] == key && last[|key|] == SEPARATOR;
      TailsPush(Setting(front, key), last, |key|);
      assert Tails(Setting(front, key), |key|) + [] == Tails(Setting(front, key), |key|);
      assert Setting(front, key) + [] == Setting(front, key);
    }
  }

  lemma TailsPush(entries: seq<Entry>, entry: Entry, n: nat)
    ensures Tails(entries + [entry], n) == Tails(entries, n) + [if n < |entry| then entry[n + 1..] else ""]
  {
  }

  lemma {:induction false} LastOverrideAt(overrides: seq<Override>, key: string)
    ensures forall j :: LastAt(KeysOf(overrides), key, j) ==> LastOverride(overrides, key) == Some(overrides[j].value)
    ensures key !in KeysOf(overrides) ==> LastOverride(overrides, key) == None
  {
    if overrides != [] {
      var front, keys := overrides[..|overrides| - 1], KeysOf(overrides);
      assert keys[..|front|] == KeysOf(front) && keys[|front|] == overrides[|front|].key;
      LastOverrideAt(front, key);
      forall j | LastAt(keys, key, j)
        ensures LastOverride(overrides, key) == Some(overrides[j].value)
      {
        if j < |front| { assert LastAt(KeysOf(front), key, j) && keys[|front|] != key; }
      }
    }
  }

  /** If the entries that set the key are as expected, so is what they set it to. */
  lemma ExpectedIsRead(base: seq<Entry>, overrides: seq<Override>, key: string)
    requires Setting(Overlaid(base, overrides), key) == Expected(base, overrides, key)
    ensures forall j :: LastAt(KeysOf(overrides), key, j) ==> ValuesOf(Overlaid(base, overrides), key) == [overrides[j].value]
    ensures key !in KeysOf(overrides) ==> ValuesOf(Overlaid(base, overrides), key) == ValuesOf(base, key)
  {
    LastOverrideAt(overrides, key);
    ValuesOfSetting(Overlaid(base, overrides), key);
    ValuesOfSetting(base, key);
    hide Overlaid, ValuesOf, Setting;
    forall j | LastAt(KeysOf(overrides), key, j)
      ensures ValuesOf(Overlaid(base, overrides), key) == [overrides[j].value]
    {
      var entry := EntryOf(Override(key, overrides[j].value));
      assert entry[|key| + 1..] == overrides[j].value;
      assert Tails([entry], |key|) == [entry[|key| + 1..]];
    }
  }

  /** With keys without a separator, the child reads an overridden key once, as its last override says, and
      every other key as the base does. */
  lemma LookupOfOverlaid(base: seq<Entry>, overrides: seq<Override>)
    ensures forall key, j :: AllPlain(overrides) && Plain(key) && LastAt(KeysOf(overrides), key, j) ==>
      ValuesOf(Overlaid(base, overrides), key) == [overrides[j].value]
    ensures forall key :: AllPlain(overrides) && Plain(key) && key !in KeysOf(overrides) ==>
      ValuesOf(Overlaid(base, overrides), key) == ValuesOf(base, key)
  {
    hide Overlaid, ValuesOf, Setting, Plain, AllPlain;
    forall key | AllPlain(overrides) && Plain(key)
      ensures forall j :: LastAt(KeysOf(overrides), key, j) ==> ValuesOf(Overlaid(base, overrides), key) == [overrides[j].value]
      ensures key !in KeysOf(overrides) ==> ValuesOf(Overlaid(base, overrides), key) == ValuesOf(base, key)
    {
      LastOverrideWins(base, overrides, key);
      ExpectedIsRead(base, overrides, key);
    }
  }

  /** What the child reads is what was meant: the value of the last override, or the base's. */
  ghost predicate ReadsBack(base: seq<Entry>, keys: seq<string>, values: seq<string>, key: string)
    requires |keys| == |values|
  {
    var environment := Overlaid(base, Zipped(keys, values));
    && (forall j :: LastAt(keys, key, j) ==> ValuesOf(environment, key) == [values[j]])
    && (key !in keys ==> ValuesOf(environment, key) == ValuesOf(base, key))
  }

  lemma {:induction false} SomeLast(keys: seq<string>, key: string) returns (j: nat)
    requires key in keys
    ensures LastAt(keys, key, j)
  {
    j := |keys| - 1;
    if keys[j] != key {
      assert keys == keys[..j] + [keys[j]];
      j := SomeLast(keys[..j], key);
    }
  }

  /** A later key that extends this one makes the child read it more than once, or to more than nothing. */
  lemma ExtendedIsMisread(keys: seq<string>, key: string)
    requires Plain(key) && !NoneExtends(keys, key)
    ensures !ReadsBack([], keys, seq(|keys|, _ => ""), key)
  {
    var base: seq<Entry>, values := [], seq(|keys|, _ => "");
    var overrides := Zipped(keys, values);
    assert KeysOf(overrides) == keys;
    var entry := ExtendedIsSetTwice(base, overrides, key);
    var environment := Overlaid(base, overrides);
    ValuesOfSetting(environment, key);
    var i :| 0 <= i < |Setting(environment, key)| && Setting(environment, key)[i] == entry;
    assert ValuesOf(environment, key)[i] == entry[|key| + 1..] != "";
    if key in keys { var j := SomeLast(keys, key); }
  }

  /** The same exact condition, for what the child reads. */
  lemma LookupHoldsExactly(keys: seq<string>, key: string)
    requires Plain(key)
    ensures (forall base, values :: |values| == |keys| ==> ReadsBack(base, keys, values, key)) <==> NoneExtends(keys, key)
  {
    if NoneExtends(keys, key) {
      forall base, values | |values| == |keys|
        ensures ReadsBack(base, keys, values, key)
      {
        assert KeysOf(Zipped(keys, values)) == keys;
        UnextendedIsExpected(base, Zipped(keys, values), key);
        ExpectedIsRead(base, Zipped(keys, values), key);
      }
    } else {
      ExtendedIsMisread(keys, key);
      assert |seq(|keys|, _ => "")| == |keys|;
    }
  }

  /** With such keys, an override's entry is kept exactly when its key is not overridden again. */
  lemma SurvivesIfLast(overrides: seq<Override>, i: nat)
    requires AllPlain(overrides) && i < |overrides|
    ensures Touched(EntryOf(overrides[i]), overrides[i + 1..]) <==>
      exists j :: i < j < |overrides| && overrides[j].key == overrides[i].key
  {
    var later := overrides[i + 1..];
    forall j | 0 <= j < |later|
      ensures HasKey(EntryOf(overrides[i]), later[j].key) <==> overrides[i + 1 + j].key == overrides[i].key
    {
      assert later[j] == overrides[i + 1 + j];
      PlainKeysAreExact(overrides[i], later[j].key);
    }
    if exists j :: i < j < |overrides| && overrides[j].key == overrides[i].key {
      var j :| i < j < |overrides| && overrides[j].key == overrides[i].key;
      assert HasKey(EntryOf(overrides[i]), later[j - i - 1].key);
    }
  }

  lemma SettingTwo(e1: Entry, e2: Entry, key: string)
    requires HasKey(e1, key) && HasKey(e2, key)
    ensures Setting([e1, e2], key) == [e1, e2]
  {
    hide HasKey;
    assert [e1, e2][..1] == [e1] && [e1][..0] == [];
    assert Setting([e1], key) == [e1];
  }

  lemma TwoSurvive(o1: Override, o2: Override)
    requires !HasKey(EntryOf(o1), o2.key)
    ensures Overlaid([], [o1, o2]) == [EntryOf(o1), EntryOf(o2)]
  {
    hide HasKey, EntryOf;
    var overrides := [o1, o2];
    assert overrides[2..] == [] && overrides[1..] == [o2];
    assert Surviving(overrides, 1) == [EntryOf(o1)];
  }

  /** A key that contains the separator can be set twice; so these keys do not always override as they should. */
  lemma SeparatorInKeyBreaksUniqueness()
    ensures var overrides := [Override("A", "x"), Override("A=B", "y")];
      |Setting(Overlaid([], overrides), "A")| == 2
    ensures !forall base, values :: |values| == 2 ==> AsExpected(base, ["A", "A=B"], values, "A")
  {
    var o1, o2 := Override("A", "x"), Override("A=B", "y");
    assert EntryOf(o1) == "A=x" && EntryOf(o2) == "A=B=y";
    TwoSurvive(o1, o2);
    SettingTwo(EntryOf(o1), EntryOf(o2), "A");
    ExtensionFollows();
    OverrideHoldsExactly(["A", "A=B"], "A");
  }

  lemma ExtensionFollows()
    ensures !NoneExtends(["A", "A=B"], "A")
  {
    var keys := ["A", "A=B"];
    assert keys[..1] == ["A"] && After(["A"], "A") == [];
    assert After(keys, "A") == ["A=B"] && Extends(After(keys, "A")[0], "A");
  }
}
