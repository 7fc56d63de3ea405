/** Notifications and the removal of duplicates from a batch. */
module Notifications {

  datatype Severity = Critical | Warning | Info | Debug

  datatype Category = WinCategory | LossCategory | ErrorCategory | HealthCategory | MilestoneCategory
                    | SystemCategory | ConfigCategory
  {
    function Name(): string {
      match this
      case WinCategory => "win"
      case LossCategory => "loss"
      case ErrorCategory => "error"
      case HealthCategory => "health"
      case MilestoneCategory => "milestone"
      case SystemCategory => "system"
      case ConfigCategory => "config"
    }
  }

  datatype Notification = Notification(id: nat, severity: Severity, category: Category, title: string, message: string)

  // ------------------------------------------------------------------ duplicates

  function TextKey(category: Category, title: string, message: string): string {
    category.Name() + ":" + title + ":" + message
  }

  function Key(n: Notification): string {
    TextKey(n.category, n.title, n.message)
  }

  function Keys(ns: seq<Notification>): (keys: seq<string>)
    ensures |keys| == |ns|
  {
    seq(|ns|, i requires 0 <= i < |ns| => Key(ns[i]))
  }

  /** Position `i` is the first with its key. */
  ghost predicate IsFirst<K>(keys: seq<K>, i: nat)
    requires i < |keys|
  {
    forall j | 0 <= j < i :: keys[j] != keys[i]
  }

  /** The first positions among the first `k`, in order. */
  ghost function KeptTo<K>(keys: seq<K>, k: nat): seq<nat>
    requires k <= |keys|
  {
    if k == 0 then [] else if IsFirst(keys, k - 1) then KeptTo(keys, k - 1) + [k - 1] else KeptTo(keys, k - 1)
  }

  ghost function DedupTo<T, K>(ns: seq<T>, keys: seq<K>, k: nat): seq<T>
    requires |ns| == |keys| && k <= |keys|
  {
    if k == 0 then []
    else if IsFirst(keys, k - 1) then DedupTo(ns, keys, k - 1) + [ns[k - 1]]
    else DedupTo(ns, keys, k - 1)
  }

  ghost function Dedup(ns: seq<Notification>): seq<Notification> {
    DedupTo(ns, Keys(ns), |ns|)
  }

  ghost function SeenTo<K>(keys: seq<K>, k: nat): set<K>
    requires k <= |keys|
  {
    if k == 0 then {} else SeenTo(keys, k - 1) + {keys[k - 1]}
  }

  lemma {:induction false} SeenUnlessFirst<K>(keys: seq<K>, k: nat, i: nat)
    requires k <= i < |keys|
    ensures keys[i] in SeenTo(keys, k) <==> exists j | 0 <= j < k :: keys[j] == keys[i]
  {
    if k > 0 {
      SeenUnlessFirst(keys, k - 1, i);
    }
  }

  method Deduplicate(ns: seq<Notification>) returns (result: seq<Notification>)
    ensures result == Dedup(ns)
  {
    ghost var keys := Keys(ns);
    var seen: set<string> := {};
    result := [];
    for k := 0 to |ns|
      invariant seen == SeenTo(keys, k)
      invariant result == DedupTo(ns, keys, k)
    {
      var key := Key(ns[k]);
      assert keys[k] == key;
      SeenUnlessFirst(keys, k, k);
      if key !in seen {
        seen := seen + {key};
        result := result + [ns[k]];
      }
    }
  }

  lemma {:induction false} KeptAscend<K>(keys: seq<K>, k: nat)
    requires k <= |keys|
    ensures forall a | 0 <= a < |KeptTo(keys, k)| :: KeptTo(keys, k)[a] < k
    ensures forall a, b | 0 <= a < b < |KeptTo(keys, k)| :: KeptTo(keys, k)[a] < KeptTo(keys, k)[b]
  {
    if k > 0 {
      KeptAscend(keys, k - 1);
    }
  }

  lemma {:induction false} KeptAreFirsts<K>(keys: seq<K>, k: nat, i: nat)
    requires k <= |keys| && i < |keys|
    ensures i in KeptTo(keys, k) <==> i < k && IsFirst(keys, i)
  {
    if k > 0 {
      KeptAreFirsts(keys, k - 1, i);
    }
  }

  lemma {:induction false} DedupAtKept<T, K>(ns: seq<T>, keys: seq<K>, k: nat)
    requires |ns| == |keys| && k <= |keys|
    ensures |DedupTo(ns, keys, k)| == |KeptTo(keys, k)|
    ensures forall a | 0 <= a < |KeptTo(keys, k)| ::
              KeptTo(keys, k)[a] < k && DedupTo(ns, keys, k)[a] == ns[KeptTo(keys, k)[a]]
  {
    if k > 0 {
      DedupAtKept(ns, keys, k - 1);
    }
  }

  /** The strictly ascending positions `kept` are exactly the first of each key, and the result is
      the batch at those positions. */
  lemma DedupKeepsFirsts(ns: seq<Notification>) returns (kept: seq<nat>)
    ensures forall i :: i in kept <==> 0 <= i < |ns| && IsFirst(Keys(ns), i)
    ensures forall a, b | 0 <= a < b < |kept| :: kept[a] < kept[b]
    ensures |Dedup(ns)| == |kept|
    ensures forall a | 0 <= a < |kept| :: kept[a] < |ns| && Dedup(ns)[a] == ns[kept[a]]
  {
    var keys := Keys(ns);
    kept := KeptTo(keys, |ns|);
    DedupAtKept(ns, keys, |ns|);
    KeptAscend(keys, |ns|);
    assert forall i | i in kept :: exists a | 0 <= a < |kept| :: kept[a] == i;
    forall i: nat | i < |ns| ensures i in kept <==> IsFirst(keys, i) {
      KeptAreFirsts(keys, |ns|, i);
    }
  }

  ghost predicate Distinct<K>(keys: seq<K>) {
    forall i, j | 0 <= i < j < |keys| :: keys[i] != keys[j]
  }

  lemma DedupDistinct(ns: seq<Notification>)
    ensures Distinct(Keys(Dedup(ns)))
  {
    var kept := DedupKeepsFirsts(ns);
    var keys, result := Keys(ns), Keys(Dedup(ns));
    forall i, j | 0 <= i < j < |result| ensures result[i] != result[j] {
      assert kept[j] in kept && IsFirst(keys, kept[j]);
      assert keys[kept[i]] == result[i] && keys[kept[j]] == result[j];
    }
  }

  lemma {:induction false} DedupOfDistinct<T, K>(ns: seq<T>, keys: seq<K>, k: nat)
    requires |ns| == |keys| && Distinct(keys) && k <= |ns|
    ensures DedupTo(ns, keys, k) == ns[..k]
  {
    if k > 0 {
      DedupOfDistinct(ns, keys, k - 1);
      assert IsFirst(keys, k - 1);
    }
  }

  lemma DedupIdempotent(ns: seq<Notification>)
    ensures Dedup(Dedup(ns)) == Dedup(ns)
  {
    DedupDistinct(ns);
    DedupOfDistinct(Dedup(ns), Keys(Dedup(ns)), |Dedup(ns)|);
  }

  /** Every key that was submitted is still there: nothing but repetitions is discarded. */
  lemma DedupCoversKeys(ns: seq<Notification>, i: nat)
    requires i < |ns|
    ensures exists n | n in Dedup(ns) :: Key(n) == Key(ns[i])
    decreases i
  {
    var keys := Keys(ns);
    assert keys[i] == Key(ns[i]);
    if IsFirst(keys, i) {
      var kept := DedupKeepsFirsts(ns);
      assert i in kept;
      var a :| 0 <= a < |kept| && kept[a] == i;
      assert Dedup(ns)[a] == ns[i];
    } else {
      var j :| 0 <= j < i && keys[j] == keys[i];
      DedupCoversKeys(ns, j);
    }
  }

  lemma {:induction false} DedupIsPart<T, K>(ns: seq<T>, keys: seq<K>, k: nat)
    requires |ns| == |keys| && k <= |keys|
    ensures multiset(DedupTo(ns, keys, k)) <= multiset(ns[..k])
    ensures |DedupTo(ns, keys, k)| <= k
  {
    if k > 0 {
      DedupIsPart(ns, keys, k - 1);
      assert ns[..k] == ns[..k - 1] + [ns[k - 1]];
    }
  }

  /** Two different messages can share a key, and then the second is discarded as a repetition. */
  lemma KeysCanCollide(id: nat, id': nat)
    ensures var a := Notification(id, Warning, WinCategory, "a:b", "c");
            var b := Notification(id', Warning, WinCategory, "a", "b:c");
            Key(a) == Key(b) && a.title != b.title && Dedup([a, b]) == [a]
  {
    var a := Notification(id, Warning, WinCategory, "a:b", "c");
    var b := Notification(id', Warning, WinCategory, "a", "b:c");
    assert TextKey(WinCategory, "a:b", "c") == "win:a:b:c" == TextKey(WinCategory, "a", "b:c");
    SecondDiscarded(a, b, Keys([a, b]));
    assert a.title[1] == ':';
  }

  lemma SecondDiscarded<T, K>(a: T, b: T, keys: seq<K>)
    requires |keys| == 2 && keys[0] == keys[1]
    ensures DedupTo([a, b], keys, 2) == [a]
  {
    assert IsFirst(keys, 0) && !IsFirst(keys, 1);
    assert DedupTo([a, b], keys, 1) == [a];
  }

  /** Within one category, two different titles share a key for some messages exactly when one of
      them, followed by a colon, begins the other. */
  lemma TitlesCollideIff(c: Category, t: string, t': string)
    requires t != t'
    ensures (exists m, m' :: TextKey(c, t, m) == TextKey(c, t', m')) <==> t + ":" <= t' || t' + ":" <= t
  {
    forall m, m' | TextKey(c, t, m) == TextKey(c, t', m') ensures t + ":" <= t' || t' + ":" <= t {
      SharedTextNests(c, t, m, t', m');
    }
    if t + ":" <= t' {
      NestedTitlesShare(c, t, t');
    }
    if t' + ":" <= t {
      NestedTitlesShare(c, t', t);
    }
  }

  lemma SharedTextNests(c: Category, t: string, m: string, t': string, m': string)
    requires t != t' && TextKey(c, t, m) == TextKey(c, t', m')
    ensures t + ":" <= t' || t' + ":" <= t
  {
    TextWithoutCategory(c, t, m);
    TextWithoutCategory(c, t', m');
    var k := t + ":" + m;
    assert k == t' + ":" + m';
    assert k[..|t|] == t && k[..|t'|] == t' && k[|t|] == ':' && k[|t'|] == ':';
    if |t| < |t'| {
      assert t' == k[..|t'|] && (t + ":") == k[..|t| + 1];
    } else if |t'| < |t| {
      assert t == k[..|t|] && (t' + ":") == k[..|t'| + 1];
    }
  }

  lemma TextWithoutCategory(c: Category, t: string, m: string)
    ensures |c.Name()| + 1 <= |TextKey(c, t, m)| && TextKey(c, t, m)[|c.Name()| + 1..] == t + ":" + m
  {
    var name := c.Name();
    assert TextKey(c, t, m) == name + ":" + (t + ":" + m);
  }

  lemma NestedTitlesShare(c: Category, t: string, t': string)
    requires t + ":" <= t'
    ensures exists m, m' :: TextKey(c, t, m) == TextKey(c, t', m')
  {
    var rest := t'[|t| + 1..];
    assert t' == t + ":" + rest;
    assert t + ":" + (rest + ":") == t' + ":" + "";
    assert TextKey(c, t, rest + ":") == TextKey(c, t', "");
  }

  /** Different categories, and different messages under one title, never share a key. */
  lemma CategoriesSeparate(a: Notification, b: Notification)
    requires a.category != b.category || a.title == b.title
    ensures Key(a) == Key(b) <==> a.category == b.category && a.message == b.message
  {
    if Key(a) == Key(b) {
      var restA, restB := a.title + ":" + a.message, b.title + ":" + b.message;
      assert Key(a) == a.category.Name() + ":" + restA && Key(b) == b.category.Name() + ":" + restB;
      NamesDiffer(a.category, b.category);
      FirstColon(a.category.Name(), restA, b.category.Name(), restB);
      assert restA[|a.title| + 1..] == a.message && restB[|b.title| + 1..] == b.message;
    }
  }

  /** In particular titles without a colon rule collisions out. */
  lemma KeysSeparate(a: Notification, b: Notification)
    requires ':' !in a.title && ':' !in b.title
    ensures Key(a) == Key(b) <==> a.category == b.category && a.title == b.title && a.message == b.message
  {
    NoNesting(a.title, b.title);
    NoNesting(b.title, a.title);
    if Key(a) == Key(b) {
      if a.category != b.category || a.title == b.title {
        CategoriesSeparate(a, b);
      } else {
        SharedTextNests(a.category, a.title, a.message, b.title, b.message);
      }
    }
  }

  lemma NoNesting(t: string, t': string)
    requires ':' !in t'
    ensures !(t + ":" <= t')
  {
    if |t| < |t'| {
      assert t'[|t|] in t' && t'[|t|] != (t + ":")[|t|];
    }
  }

  lemma FirstColon(x: string, x': string, y: string, y': string)
    requires ':' !in x && ':' !in y && x + ":" + x' == y + ":" + y'
    ensures x == y && x' == y'
  {
    var s := x + ":" + x';
    assert s == y + ":" + y';
    assert s[|x|] == ':' && s[|y|] == ':';
    assert forall i | 0 <= i < |y| :: s[i] == y[i] && y[i] in y;
    assert forall i | 0 <= i < |x| :: s[i] == x[i] && x[i] in x;
    assert |x| == |y|;
    assert x == s[..|x|] == y;
    assert x' == s[|x| + 1..] == y';
  }

  lemma NamesDiffer(a: Category, b: Category)
    ensures ':' !in a.Name()
    ensures a.Name() == b.Name() ==> a == b
  {
    match a { case _ => }
  }

}
