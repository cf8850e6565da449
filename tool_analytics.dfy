/** Tool-usage analytics: the usage history and the current session, the
    next-tool suggestions built from tool transitions, the context-aware
    suggestions, the recently used tools and the read-only statistics.

    Timestamps are milliseconds and the current time is a parameter. The
    dictionaries the source builds (`toolCounts`, `toolTransitions[key]`,
    `contexts`, `toolStats`) are tallies: lists of keys in order of first
    insertion, which is the order `Object.entries` reports for keys that are
    not array indices. */
module ToolAnalytics {
  import opened Common

  /** One recorded use; of the caller's context only `workflow` is read back. */
  datatype Usage = Usage(toolId: string, timestamp: int, workflow: Option<string>,
                         sessionDuration: int, previousTool: Option<string>)

  function Ids(us: seq<Usage>): (r: seq<string>)
    ensures |r| == |us| && forall i | 0 <= i < |us| :: r[i] == us[i].toolId
  {
    if us == [] then [] else Ids(us[..|us| - 1]) + [us[|us| - 1].toolId]
  }

  /** `getCurrentToolPattern`: the ids of the last (at most five) session uses, in order. */
  function Pattern(session: seq<Usage>): (r: seq<string>)
    ensures |r| == (if |session| < 5 then |session| else 5)
    ensures forall i | 0 <= i < |r| :: r[i] == session[|session| - |r| + i].toolId
  {
    var m := if |session| < 5 then |session| else 5;
    Ids(session[|session| - m..])
  }

  // ------------------------------------------------------------------ tallies

  datatype Weight = Weight(key: string, weight: real)

  function Keys(t: seq<Weight>): (r: seq<string>)
    ensures |r| == |t| && forall i | 0 <= i < |t| :: r[i] == t[i].key
  {
    if t == [] then [] else Keys(t[..|t| - 1]) + [t[|t| - 1].key]
  }

  /** A JavaScript object used as a dictionary: its values and the order in
      which its keys were first set. */
  datatype Dict = Dict(order: seq<string>, val: map<string, real>)

  predicate WellFormed(d: Dict)
  {
    NoDup(d.order) && (forall k | k in d.order :: k in d.val) && forall k | k in d.val :: k in d.order
  }

  /** `d[k] = (d[k] || 0) + w` */
  function AddWeight(d: Dict, k: string, w: real): Dict
  {
    if k in d.val then Dict(d.order, d.val[k := d.val[k] + w]) else Dict(d.order + [k], d.val[k := w])
  }

  /** The dictionary built by adding a list of weighted keys in order. */
  function Tally(evs: seq<Weight>): Dict
  {
    if evs == [] then Dict([], map[])
    else AddWeight(Tally(evs[..|evs| - 1]), evs[|evs| - 1].key, evs[|evs| - 1].weight)
  }

  /** The sum of the weights added under `k`. */
  function Total(evs: seq<Weight>, k: string): real
  {
    if evs == [] then 0.0
    else Total(evs[..|evs| - 1], k) + (if evs[|evs| - 1].key == k then evs[|evs| - 1].weight else 0.0)
  }

  /** A tally has each key once, exactly the keys that were added, and under
      each key the sum of its weights. */
  lemma {:induction false} TallyLaws(evs: seq<Weight>)
    ensures WellFormed(Tally(evs))
    ensures forall k :: k in Tally(evs).val <==> k in Keys(evs)
    ensures forall k | k in Tally(evs).val :: Tally(evs).val[k] == Total(evs, k)
  {
    if evs != [] {
      var p := evs[..|evs| - 1];
      var x := evs[|evs| - 1];
      TallyLaws(p);
      var t := Tally(p);
      assert Keys(evs) == Keys(p) + [x.key];
      if x.key !in t.val {
        NoDupSnoc(t.order, x.key);
        ZeroTotalAbsent(p, x.key);
      }
    }
  }

  lemma NoDupSnoc(s: seq<string>, x: string)
    requires NoDup(s) && x !in s
    ensures NoDup(s + [x])
  {
    var r := s + [x];
    forall i, j | 0 <= i < j < |r| ensures r[i] != r[j] {
      if j == |s| { assert r[i] == s[i]; } else { assert r[i] == s[i] && r[j] == s[j]; }
    }
  }

  /** A key never added has nothing summed under it. */
  lemma {:induction false} ZeroTotalAbsent(evs: seq<Weight>, k: string)
    requires k !in Keys(evs)
    ensures Total(evs, k) == 0.0
  {
    if evs != [] {
      var p := evs[..|evs| - 1];
      assert Keys(evs) == Keys(p) + [evs[|evs| - 1].key];
      ZeroTotalAbsent(p, k);
    }
  }

  /** `Object.entries(d)`: the key-value pairs in key order. */
  function Entries(order: seq<string>, val: map<string, real>): (r: seq<Weight>)
    requires forall k | k in order :: k in val
    ensures |r| == |order| && forall i | 0 <= i < |order| :: r[i] == Weight(order[i], val[order[i]])
  {
    if order == [] then [] else Entries(order[..|order| - 1], val) + [Weight(order[|order| - 1], val[order[|order| - 1]])]
  }

  /** The entries of a tally, in key order. */
  function TallyEntries(evs: seq<Weight>): (r: seq<Weight>)
    ensures NoDup(Keys(r))
    ensures forall k :: k in Keys(r) <==> k in Keys(evs)
    ensures forall e | e in r :: e.weight == Total(evs, e.key)
  {
    TallyLaws(evs);
    var d := Tally(evs);
    EntriesLaws(d.order, d.val);
    Entries(d.order, d.val)
  }

  lemma EntriesLaws(order: seq<string>, val: map<string, real>)
    requires forall k | k in order :: k in val
    ensures Keys(Entries(order, val)) == order
    ensures forall e | e in Entries(order, val) :: e.key in val && e.weight == val[e.key]
  {
    var r := Entries(order, val);
    assert Keys(r) == order;
    forall e | e in r ensures e.key in val && e.weight == val[e.key] {
      var i :| 0 <= i < |r| && r[i] == e;
    }
  }

  // ---------------------------------------------------------------- most used

  /** One count per use, keyed by tool id. */
  function Ones(us: seq<Usage>): (r: seq<Weight>)
    ensures |r| == |us| && forall i | 0 <= i < |us| :: r[i] == Weight(us[i].toolId, 1.0)
  {
    if us == [] then [] else Ones(us[..|us| - 1]) + [Weight(us[|us| - 1].toolId, 1.0)]
  }

  /** How many uses of the tool the list holds. */
  function Uses(us: seq<Usage>, id: string): nat
  {
    if us == [] then 0 else Uses(us[..|us| - 1], id) + (if us[|us| - 1].toolId == id then 1 else 0)
  }

  lemma {:induction false} OnesTotal(us: seq<Usage>, id: string)
    ensures Total(Ones(us), id) == Uses(us, id) as real
  {
    if us != [] {
      assert Ones(us)[..|us| - 1] == Ones(us[..|us| - 1]);
      OnesTotal(us[..|us| - 1], id);
    }
  }

  function ByCount(t: seq<Weight>): seq<Weight>
  {
    SortDesc(t, (e: Weight) => e.weight)
  }

  /** `getMostUsedTools(limit)` on the counts of the history. */
  function MostUsed(history: seq<Usage>, limit: int): seq<Weight>
  {
    Slice0(ByCount(TallyEntries(Ones(history))), limit)
  }

  lemma OnesKeys(us: seq<Usage>)
    ensures Keys(Ones(us)) == Ids(us)
  {
  }

  /** Sorting by count keeps the entries, their keys and their distinctness,
      and orders them by non-increasing count. */
  lemma ByCountKeeps(t: seq<Weight>)
    requires NoDup(Keys(t))
    ensures var s := ByCount(t);
      NoDup(Keys(s)) && (forall e :: e in s <==> e in t) &&
      (forall id :: id in Keys(s) <==> id in Keys(t)) &&
      (forall i, j | 0 <= i < j < |s| :: s[i].weight >= s[j].weight)
  {
    var s := ByCount(t);
    assert forall e :: e in s <==> e in t by {
      forall e ensures e in s <==> e in t {
        assert e in s <==> e in multiset(s);
        assert e in t <==> e in multiset(t);
      }
    }
    NoDupPermutationKeys(t, s);
    forall id ensures id in Keys(s) <==> id in Keys(t) {
      if id in Keys(s) {
        var j :| 0 <= j < |s| && s[j].key == id;
        assert s[j] in t;
      }
      if id in Keys(t) {
        var j :| 0 <= j < |t| && t[j].key == id;
        assert t[j] in s;
      }
    }
  }

  /** The tools of the history by count: each once, with its exact number
      of uses, by non-increasing count. */
  lemma ByCountLaws(history: seq<Usage>)
    ensures var s := ByCount(TallyEntries(Ones(history)));
      NoDup(Keys(s)) &&
      (forall id :: id in Keys(s) <==> id in Ids(history)) &&
      (forall e | e in s :: e.weight == Uses(history, e.key) as real) &&
      (forall i, j | 0 <= i < j < |s| :: s[i].weight >= s[j].weight)
  {
    var t := TallyEntries(Ones(history));
    OnesKeys(history);
    ByCountKeeps(t);
    forall e | e in ByCount(t) ensures e.weight == Uses(history, e.key) as real {
      OnesTotal(history, e.key);
    }
  }

  /** A prefix of a list sorted by non-increasing weight with distinct keys:
      its entries come from the list, and an entry left out weighs no more
      than any entry kept. */
  lemma PrefixLaws(s: seq<Weight>, limit: int)
    requires NoDup(Keys(s))
    requires forall i, j | 0 <= i < j < |s| :: s[i].weight >= s[j].weight
    ensures var r := Slice0(s, limit);
      (limit >= 0 ==> |r| <= limit) && NoDup(Keys(r)) &&
      (forall e | e in r :: e in s) &&
      (forall i, j | 0 <= i < j < |r| :: r[i].weight >= r[j].weight) &&
      (forall e | e in s && e.key !in Keys(r) :: forall f | f in r :: e.weight <= f.weight)
  {
    var r := Slice0(s, limit);
    PrefixOrder(s, |r|);
    PrefixTop(s, |r|);
  }

  /** A prefix keeps the order and the distinct keys. */
  lemma PrefixOrder(s: seq<Weight>, n: nat)
    requires n <= |s| && NoDup(Keys(s))
    requires forall i, j | 0 <= i < j < |s| :: s[i].weight >= s[j].weight
    ensures var r := s[..n];
      NoDup(Keys(r)) && (forall e | e in r :: e in s) &&
      (forall i, j | 0 <= i < j < |r| :: r[i].weight >= r[j].weight)
  {
    var r := s[..n];
    assert forall j | 0 <= j < |r| :: Keys(r)[j] == Keys(s)[j];
  }

  /** An entry left out of a prefix weighs no more than any entry kept. */
  lemma PrefixTop(s: seq<Weight>, n: nat)
    requires n <= |s|
    requires forall i, j | 0 <= i < j < |s| :: s[i].weight >= s[j].weight
    ensures forall e | e in s && e.key !in Keys(s[..n]) :: forall f | f in s[..n] :: e.weight <= f.weight
  {
    var r := s[..n];
    var kr := Keys(r);
    forall e, f | e in s && e.key !in kr && f in r ensures e.weight <= f.weight {
      var m :| 0 <= m < |s| && s[m] == e;
      var j :| 0 <= j < n && r[j] == f;
    }
  }

  /** The most used tools: at most `limit` of them, each tool of the
      history at most once and with its exact number of uses. */
  lemma MostUsedCounts(history: seq<Usage>, limit: int)
    ensures var r := MostUsed(history, limit);
      (limit >= 0 ==> |r| <= limit) && NoDup(Keys(r)) &&
      (forall e | e in r :: e.key in Ids(history) && e.weight == Uses(history, e.key) as real)
  {
    ByCountLaws(history);
    var s := ByCount(TallyEntries(Ones(history)));
    PrefixLaws(s, limit);
    forall e | e in Slice0(s, limit) ensures e.key in Ids(history) {
      KeyOf(s, e);
    }
  }

  /** The most used tools come by non-increasing count, and a tool of the
      history left out is used no more often than any tool listed. */
  lemma MostUsedOrder(history: seq<Usage>, limit: int)
    ensures var r := MostUsed(history, limit);
      (forall i, j | 0 <= i < j < |r| :: r[i].weight >= r[j].weight) &&
      (forall id | id in Ids(history) && id !in Keys(r) ::
        forall e | e in r :: Uses(history, id) as real <= e.weight)
  {
    ByCountLaws(history);
    var s := ByCount(TallyEntries(Ones(history)));
    PrefixLaws(s, limit);
    var r := Slice0(s, limit);
    forall id | id in Ids(history) && id !in Keys(r)
      ensures forall e | e in r :: Uses(history, id) as real <= e.weight
    {
      var e := KeyWitness(s, id);
    }
  }

  lemma KeyOf(t: seq<Weight>, e: Weight)
    requires e in t
    ensures e.key in Keys(t)
  {
    var j :| 0 <= j < |t| && t[j] == e;
    assert Keys(t)[j] == e.key;
  }

  lemma KeyWitness(t: seq<Weight>, id: string) returns (e: Weight)
    requires id in Keys(t)
    ensures e in t && e.key == id
  {
    var m :| 0 <= m < |t| && Keys(t)[m] == id;
    e := t[m];
  }

  /** Sorting a tally keeps its keys free of repeats. */
  lemma NoDupPermutationKeys(t: seq<Weight>, s: seq<Weight>)
    requires multiset(s) == multiset(t) && NoDup(Keys(t))
    ensures NoDup(Keys(s))
  {
    assert NoDup(t) by {
      forall i, j | 0 <= i < j < |t| ensures t[i] != t[j] {
        assert Keys(t)[i] != Keys(t)[j];
      }
    }
    NoDupPermutation(t, s);
    forall i, j | 0 <= i < j < |s| ensures Keys(s)[i] != Keys(s)[j] {
      assert s[i] in multiset(t) && s[j] in multiset(t);
      var a :| 0 <= a < |t| && t[a] == s[i];
      var b :| 0 <= b < |t| && t[b] == s[j];
      assert a != b;
      assert Keys(t)[a] != Keys(t)[b];
    }
  }

  // -------------------------------------------------------------- transitions

  /** One entry added to `toolTransitions[key][next]`. */
  datatype Transition = Transition(key: string, next: string, weight: real)

  /** The step `i` of the session loop: the transition from the pair before
      `i` to the tool after it, weighted 1, when all three ids are non-empty
      and the tool changes. */
  function SessionStep(ids: seq<string>, i: nat): seq<Transition>
    requires 1 <= i < |ids|
  {
    if i + 1 < |ids| && ids[i - 1] != "" && ids[i] != "" && ids[i + 1] != "" && ids[i + 1] != ids[i]
    then [Transition(ids[i - 1] + "->" + ids[i], ids[i + 1], 1.0)]
    else []
  }

  /** The transitions the session loop adds in its first `n - 1` steps. */
  function SessionTransitions(ids: seq<string>, n: nat): seq<Transition>
    requires n <= |ids|
  {
    if n <= 1 then [] else SessionTransitions(ids, n - 1) + SessionStep(ids, n - 1)
  }

  /** The step `i` of the history loop: the transition from the two uses
      before `i` to use `i`, weighted one half, when all three ids are non-empty. */
  function HistoryStep(ids: seq<string>, i: nat): seq<Transition>
    requires 2 <= i < |ids|
  {
    if ids[i - 2] != "" && ids[i - 1] != "" && ids[i] != ""
    then [Transition(ids[i - 2] + "->" + ids[i - 1], ids[i], 0.5)]
    else []
  }

  function HistoryTransitions(ids: seq<string>, n: nat): seq<Transition>
    requires n <= |ids|
  {
    if n <= 2 then [] else HistoryTransitions(ids, n - 1) + HistoryStep(ids, n - 1)
  }

  /** Every session transition records three consecutive uses whose last two
      differ; every history transition records three consecutive uses. */
  lemma {:induction false} TransitionsLaws(ids: seq<string>, n: nat)
    requires n <= |ids|
    ensures forall t | t in SessionTransitions(ids, n) :: exists i | 1 <= i && i + 1 < |ids| ::
      t == Transition(ids[i - 1] + "->" + ids[i], ids[i + 1], 1.0) && ids[i + 1] != ids[i]
    ensures forall t | t in HistoryTransitions(ids, n) :: exists i | 2 <= i < |ids| ::
      t == Transition(ids[i - 2] + "->" + ids[i - 1], ids[i], 0.5)
  {
    if n > 1 {
      TransitionsLaws(ids, n - 1);
      if n > 2 {
        assert HistoryStep(ids, n - 1) == [] ||
          HistoryStep(ids, n - 1) == [Transition(ids[n - 3] + "->" + ids[n - 2], ids[n - 1], 0.5)];
      }
    }
  }

  /** The entries of `toolTransitions[key]`, in the order they were added. */
  function NextFor(evs: seq<Transition>, key: string): (r: seq<Weight>)
    ensures forall w | w in r :: exists t | t in evs :: t.key == key && w == Weight(t.next, t.weight)
  {
    if evs == [] then []
    else
      var t := evs[|evs| - 1];
      NextFor(evs[..|evs| - 1], key) + (if t.key == key then [Weight(t.next, t.weight)] else [])
  }

  /** The keys of a tally with the largest weights, at most `n` of them. */
  function TopKeys(evs: seq<Weight>, n: nat): (r: seq<string>)
    ensures |r| <= n && NoDup(r)
    ensures forall x | x in r :: x in Keys(evs)
  {
    var t := TallyEntries(evs);
    var s := ByCount(t);
    RankedKeeps(t, s);
    TakeNoDup(Keys(s), n);
    Take(Keys(s), n)
  }

  lemma KeysTake(s: seq<Weight>, n: nat)
    ensures Keys(Take(s, n)) == Take(Keys(s), n)
  {
    assert forall i | 0 <= i < |Take(s, n)| :: Keys(Take(s, n))[i] == Take(Keys(s), n)[i];
  }

  /** A tally has one entry per distinct key. */
  lemma {:induction false} TallyEntriesCount(evs: seq<Weight>)
    ensures |TallyEntries(evs)| == |set k | k in Keys(evs)|
  {
    var kt := Keys(TallyEntries(evs));
    var ke := Keys(evs);
    NoDupCard(kt);
    var a := set k | k in kt;
    var b := set k | k in ke;
    forall k ensures k in a <==> k in b {
      assert k in kt <==> k in ke;
    }
    assert a == b;
  }

  /** `TopKeys` lists `n` keys, or every key when there are fewer, and a key
      left out has in total no more weight than any key listed. */
  lemma {:induction false} TopKeysRanked(evs: seq<Weight>, n: nat)
    ensures var m := |set k | k in Keys(evs)|;
      |TopKeys(evs, n)| == (if n < m then n else m)
    ensures forall k, x | k in Keys(evs) && k !in TopKeys(evs, n) && x in TopKeys(evs, n) ::
      Total(evs, k) <= Total(evs, x)
  {
    var s := ByCount(TallyEntries(evs));
    assert TopKeys(evs, n) == Take(Keys(s), n);
    TallyEntriesCount(evs);
    TopKeysTop(evs, n);
  }

  lemma {:induction false} TopKeysTop(evs: seq<Weight>, n: nat)
    ensures forall k, x | k in Keys(evs) && k !in TopKeys(evs, n) && x in TopKeys(evs, n) ::
      Total(evs, k) <= Total(evs, x)
  {
    var t := TallyEntries(evs);
    var s := ByCount(t);
    var r := TopKeys(evs, n);
    assert r == Take(Keys(s), n);
    ByCountKeeps(t);
    var p := Take(s, n);
    KeysTake(s, n);
    PrefixTop(s, |p|);
    forall k, x | k in Keys(evs) && k !in r && x in r ensures Total(evs, k) <= Total(evs, x) {
      var e := KeyWitness(t, k);
      var f := KeyWitness(p, x);
      assert e in s && e.key !in Keys(s[..|p|]);
      assert f in s[..|p|];
      assert f in t;
    }
  }

  /** Every next tool of a transition of `key` is a key of `NextFor(evs, key)`. */
  lemma {:induction false} NextForComplete(evs: seq<Transition>, key: string)
    ensures forall t | t in evs && t.key == key :: t.next in Keys(NextFor(evs, key))
  {
    if evs != [] {
      var p := evs[..|evs| - 1];
      var last := evs[|evs| - 1];
      NextForComplete(p, key);
      var w := NextFor(p, key);
      var tail := if last.key == key then [Weight(last.next, last.weight)] else [];
      assert NextFor(evs, key) == w + tail;
      assert Keys(w + tail) == Keys(w) + Keys(tail);
      forall t | t in evs && t.key == key ensures t.next in Keys(NextFor(evs, key)) {
        if t != last {
          assert t in p by {
            var i :| 0 <= i < |evs| && evs[i] == t;
            assert i < |evs| - 1;
            assert p[i] == t;
          }
        } else {
          assert Keys(tail) == [t.next];
        }
      }
    }
  }

  /** Every key of `NextFor(evs, key)` is the next tool of a transition of `key`. */
  lemma NextForKeys(evs: seq<Transition>, key: string)
    ensures forall x | x in Keys(NextFor(evs, key)) :: exists t | t in evs :: t.key == key && t.next == x
  {
    var w := NextFor(evs, key);
    forall x | x in Keys(w) ensures exists t | t in evs :: t.key == key && t.next == x {
      var j :| 0 <= j < |w| && w[j].key == x;
      assert w[j] in w;
    }
  }

  /** The suggestions from transitions: the (at most four) tools that most
      often followed the last two tools of the pattern. */
  function TransitionSuggestions(evs: seq<Transition>, pattern: seq<string>): (r: seq<string>)
    ensures |r| <= 4 && NoDup(r)
    ensures |pattern| < 2 ==> r == []
    ensures |pattern| >= 2 ==> forall x | x in r ::
      exists t | t in evs :: t.key == pattern[|pattern| - 2] + "->" + pattern[|pattern| - 1] && t.next == x
  {
    if |pattern| >= 2 then
      var key := pattern[|pattern| - 2] + "->" + pattern[|pattern| - 1];
      NextForKeys(evs, key);
      TopKeys(NextFor(evs, key), 4)
    else []
  }

  /** The transition suggestions are the top four successors of the last two
      tools: four of them, or all when there are fewer, and a successor left
      out has in total no more weight than any successor suggested. */
  lemma TransitionSuggestionsRanked(evs: seq<Transition>, pattern: seq<string>)
    ensures |pattern| >= 2 ==>
      var key := pattern[|pattern| - 2] + "->" + pattern[|pattern| - 1];
      var w := NextFor(evs, key);
      var next := set t | t in evs && t.key == key :: t.next;
      var r := TransitionSuggestions(evs, pattern);
      |r| == (if 4 < |next| then 4 else |next|) &&
      forall x, y | x in next && x !in r && y in r :: Total(w, x) <= Total(w, y)
  {
    if |pattern| >= 2 {
      var key := pattern[|pattern| - 2] + "->" + pattern[|pattern| - 1];
      var w := NextFor(evs, key);
      NextForKeys(evs, key);
      NextForComplete(evs, key);
      assert (set k | k in Keys(w)) == set t | t in evs && t.key == key :: t.next;
      TopKeysRanked(w, 4);
    }
  }

  /** `getWorkflowSuggestions`: tools suggested by the workflow the pattern shows. */
  function WorkflowSuggestions(pattern: seq<string>): (r: seq<string>)
    ensures forall x | x in r :: x in ["text", "brush", "triangle", "circle", "move"]
    ensures "text" in pattern || "eraser" in pattern ==> "brush" in r && "move" in r
  {
    (if "square" in pattern && "circle" in pattern then ["text", "brush"] else []) +
    (if "brush" in pattern && "square" in pattern then ["triangle", "circle"] else []) +
    (if "text" in pattern then ["brush", "move"] else []) +
    (if "eraser" in pattern then ["brush", "move"] else [])
  }

  /** The transitions both loops of `updateSuggestedTools` record. */
  function AllTransitions(session: seq<Usage>, history: seq<Usage>): seq<Transition>
  {
    SessionTransitions(Ids(session), |session|) + HistoryTransitions(Ids(history), |history|)
  }

  /** `[...new Set(all)].filter(x => !excluded.includes(x)).slice(0, n)`:
      distinct candidates not excluded, at most `n`; a candidate is left out
      only when it is excluded or `n` are already listed. */
  function Pick(all: seq<string>, excluded: seq<string>, n: nat): (r: seq<string>)
    ensures |r| <= n && NoDup(r)
    ensures forall x | x in r :: x in all && x !in excluded
    ensures forall x | x in all && x !in excluded :: x in r || |r| == n
  {
    var keep := (x: string) => x !in excluded;
    var d := Dedupe(all);
    var f := Filter(d, keep);
    FilterMembers(d, keep);
    FilterNoDup(d, keep);
    TakeNoDup(f, n);
    Take(f, n)
  }

  /** The candidates `updateSuggestedTools` collects before filtering. */
  function SuggestionCandidates(session: seq<Usage>, history: seq<Usage>): seq<string>
  {
    var pattern := Pattern(session);
    TransitionSuggestions(AllTransitions(session, history), pattern) + WorkflowSuggestions(pattern)
  }

  /** `updateSuggestedTools`: the transition and workflow suggestions,
      without repeats and without the tools of the current pattern, at most
      four; a candidate is left out only when four are already listed. */
  function SuggestedTools(session: seq<Usage>, history: seq<Usage>): seq<string>
  {
    Pick(SuggestionCandidates(session, history), Pattern(session), 4)
  }

  lemma SuggestedToolsLaws(session: seq<Usage>, history: seq<Usage>)
    ensures var r := SuggestedTools(session, history);
      |r| <= 4 && NoDup(r) &&
      (forall x | x in r :: x !in Pattern(session) && x in SuggestionCandidates(session, history)) &&
      (forall x | x in SuggestionCandidates(session, history) && x !in Pattern(session) :: x in r || |r| == 4)
  {
  }

  // ------------------------------------------------------------ context aware

  predicate UsedAny(session: seq<Usage>, tools: seq<string>)
  {
    exists u | u in session :: u.toolId in tools
  }

  /** The tools `updateContextAwareTools` collects: "move" and "text" after
      a shape tool, "eraser" and "move" after a drawing tool, "move" and
      "brush" after the text tool, and "move" in a session over ten minutes. */
  function ContextCandidates(shape: bool, drawing: bool, text: bool, long: bool): (r: seq<string>)
    ensures forall x | x in r :: x == "move" || x == "text" || x == "eraser" || x == "brush"
    ensures shape ==> |r| > 0 && r[0] == "move"
    ensures !shape && !drawing && !text && !long ==> r == []
  {
    (if shape then ["move", "text"] else []) + (if drawing then ["eraser", "move"] else []) +
    (if text then ["move", "brush"] else []) + (if long then ["move"] else [])
  }

  /** `updateContextAwareTools` for a session of the given duration: at most
      three distinct tools from a fixed set; "move" leads once any shape
      tool was used, and a short empty session gets none. */
  function ContextAware(session: seq<Usage>, duration: int): seq<string>
  {
    Take(Dedupe(ContextCandidates(UsedAny(session, ["square", "circle", "triangle"]),
      UsedAny(session, ["brush", "eraser"]), UsedAny(session, ["text"]), duration > 600000)), 3)
  }

  lemma ContextAwareLaws(session: seq<Usage>, duration: int)
    ensures var r := ContextAware(session, duration);
      |r| <= 3 && NoDup(r) &&
      (forall x | x in r :: x == "move" || x == "text" || x == "eraser" || x == "brush")
  {
    var c := ContextCandidates(UsedAny(session, ["square", "circle", "triangle"]),
      UsedAny(session, ["brush", "eraser"]), UsedAny(session, ["text"]), duration > 600000);
    FirstThreeLaws(c);
  }

  /** "move" leads the context-aware tools once a shape tool was used, and a
      short session without uses gets none. */
  lemma ContextAwareFirst(session: seq<Usage>, duration: int)
    ensures var r := ContextAware(session, duration);
      (UsedAny(session, ["square", "circle", "triangle"]) ==> |r| > 0 && r[0] == "move") &&
      (session == [] && duration <= 600000 ==> r == [])
  {
    var c := ContextCandidates(UsedAny(session, ["square", "circle", "triangle"]),
      UsedAny(session, ["brush", "eraser"]), UsedAny(session, ["text"]), duration > 600000);
    FirstThreeLaws(c);
  }

  /** The first three distinct elements of `c`. */
  lemma FirstThreeLaws(c: seq<string>)
    ensures var r := Take(Dedupe(c), 3);
      |r| <= 3 && NoDup(r) && (forall x | x in r :: x in c) &&
      (c != [] ==> |r| > 0 && r[0] == c[0]) && (c == [] ==> r == [])
  {
    var d := Dedupe(c);
    TakeNoDup(d, 3);
    assert forall x | x in Take(d, 3) :: x in d;
    assert c != [] ==> d != [] by {
      if c != [] { assert c[0] in d; }
    }
  }

  // ------------------------------------------------------------- recent tools

  const Hour: int := 3600000

  /** The latest timestamp among the uses of `id`, starting from 0 as the
      source's `lastUsed` does. */
  function LastUse(us: seq<Usage>, id: string): int
  {
    if us == [] then 0
    else
      var l := LastUse(us[..|us| - 1], id);
      var u := us[|us| - 1];
      if u.toolId == id && u.timestamp > l then u.timestamp else l
  }

  /** The uses of the last hour. */
  function RecentUses(history: seq<Usage>, now: int): seq<Usage>
  {
    Filter(history, (u: Usage) => u.timestamp > now - Hour)
  }

  /** The ranking score of a tool: its count plus, as written, half the hours
      since its last use; `asWritten == false` subtracts that term instead. */
  function RecencyScore(e: Weight, recent: seq<Usage>, now: int, asWritten: bool): real
  {
    var hours := (now - LastUse(recent, e.key)) as real / Hour as real * 0.5;
    if asWritten then e.weight + hours else e.weight - hours
  }

  /** The tools of the last hour, by descending score (a stable sort). */
  function RankedRecent(history: seq<Usage>, now: int, asWritten: bool): seq<Weight>
  {
    var recent := RecentUses(history, now);
    SortDesc(TallyEntries(Ones(recent)), ScoreBy(recent, now, asWritten))
  }

  function ScoreBy(recent: seq<Usage>, now: int, asWritten: bool): Weight -> real
  {
    (e: Weight) => RecencyScore(e, recent, now, asWritten)
  }

  /** The score a tool used in the last hour is ranked by. */
  function RecentScore(history: seq<Usage>, now: int, id: string, asWritten: bool): real
  {
    var recent := RecentUses(history, now);
    RecencyScore(Weight(id, Uses(recent, id) as real), recent, now, asWritten)
  }

  /** `updateRecentTools` as written: the first six ranked tools. */
  function RecentToolsAsWritten(history: seq<Usage>, now: int): (r: seq<string>)
    ensures |r| <= 6 && NoDup(r)
    ensures forall x | x in r :: x in Ids(RecentUses(history, now))
  {
    RankedRecentKeys(history, now, true);
    var s := RankedRecent(history, now, true);
    TakeNoDup(Keys(s), 6);
    Take(Keys(s), 6)
  }

  /** `updateRecentTools` with the recency term subtracted, so that recent use
      ranks a tool higher, as the source's comment says it should. */
  function RecentTools(history: seq<Usage>, now: int): (r: seq<string>)
    ensures |r| <= 6 && NoDup(r)
    ensures forall x | x in r :: x in Ids(RecentUses(history, now))
  {
    RankedRecentKeys(history, now, false);
    var s := RankedRecent(history, now, false);
    TakeNoDup(Keys(s), 6);
    Take(Keys(s), 6)
  }

  /** The ranked tools are the distinct tools of the last hour. */
  lemma RankedRecentKeys(history: seq<Usage>, now: int, asWritten: bool)
    ensures var s := RankedRecent(history, now, asWritten);
      NoDup(Keys(s)) && forall x :: x in Keys(s) <==> x in Ids(RecentUses(history, now))
  {
    var recent := RecentUses(history, now);
    var t := TallyEntries(Ones(recent));
    var s := RankedRecent(history, now, asWritten);
    assert multiset(s) == multiset(t);
    RankedKeeps(t, s);
    OnesKeys(recent);
  }

  lemma RankedKeeps(t: seq<Weight>, s: seq<Weight>)
    requires multiset(s) == multiset(t) && NoDup(Keys(t))
    ensures NoDup(Keys(s)) && forall x :: x in Keys(s) <==> x in Keys(t)
  {
    NoDupPermutationKeys(t, s);
    forall x ensures x in Keys(s) <==> x in Keys(t) {
      if x in Keys(s) {
        var j :| 0 <= j < |s| && s[j].key == x;
        assert s[j] in multiset(t);
      }
      if x in Keys(t) {
        var j :| 0 <= j < |t| && t[j].key == x;
        assert t[j] in multiset(s);
      }
    }
  }

  /** Ranking as written puts, of two tools used equally often in the last
      hour, the one used longer ago first. */
  lemma AsWrittenPrefersOlder(history: seq<Usage>, now: int)
    ensures var recent := RecentUses(history, now); var s := RankedRecent(history, now, true);
      forall i, j | 0 <= i < j < |s| && s[i].weight == s[j].weight ::
        LastUse(recent, s[i].key) <= LastUse(recent, s[j].key)
  {
    var recent := RecentUses(history, now);
    var s := RankedRecent(history, now, true);
    forall i, j | 0 <= i < j < |s| && s[i].weight == s[j].weight
      ensures LastUse(recent, s[i].key) <= LastUse(recent, s[j].key)
    {
      assert RecencyScore(s[i], recent, now, true) >= RecencyScore(s[j], recent, now, true);
    }
  }

  /** With the recency term subtracted, of two tools used equally often the
      more recently used ranks first. */
  lemma CorrectedPrefersRecent(history: seq<Usage>, now: int)
    ensures var recent := RecentUses(history, now); var s := RankedRecent(history, now, false);
      forall i, j | 0 <= i < j < |s| && s[i].weight == s[j].weight ::
        LastUse(recent, s[i].key) >= LastUse(recent, s[j].key)
  {
    var recent := RecentUses(history, now);
    var s := RankedRecent(history, now, false);
    forall i, j | 0 <= i < j < |s| && s[i].weight == s[j].weight
      ensures LastUse(recent, s[i].key) >= LastUse(recent, s[j].key)
    {
      assert RecencyScore(s[i], recent, now, false) >= RecencyScore(s[j], recent, now, false);
    }
  }

  /** The recent tools are the top six by score: as many as there are
      distinct tools of the last hour, up to six, and a tool of the last hour
      left out scores no higher than any tool listed. Both rankings. */
  lemma {:induction false} RankedRecentTop(history: seq<Usage>, now: int, asWritten: bool)
    ensures var recent := RecentUses(history, now);
      var r := if asWritten then RecentToolsAsWritten(history, now) else RecentTools(history, now);
      var m := |set x | x in Ids(recent)|;
      |r| == (if 6 < m then 6 else m) &&
      forall x, y | x in Ids(recent) && x !in r && y in r ::
        RecentScore(history, now, x, asWritten) <= RecentScore(history, now, y, asWritten)
  {
    var recent := RecentUses(history, now);
    var r := if asWritten then RecentToolsAsWritten(history, now) else RecentTools(history, now);
    assert r == Take(Keys(RankedRecent(history, now, asWritten)), 6);
    TallyEntriesCount(Ones(recent));
    OnesKeys(recent);
    RankedRecentBest(history, now, asWritten);
  }

  lemma {:induction false} RankedRecentBest(history: seq<Usage>, now: int, asWritten: bool)
    ensures var r := Take(Keys(RankedRecent(history, now, asWritten)), 6);
      forall x, y | x in Ids(RecentUses(history, now)) && x !in r && y in r ::
        RecentScore(history, now, x, asWritten) <= RecentScore(history, now, y, asWritten)
  {
    var recent := RecentUses(history, now);
    var t := TallyEntries(Ones(recent));
    var key := ScoreBy(recent, now, asWritten);
    var s := SortDesc(t, key);
    assert s == RankedRecent(history, now, asWritten);
    var p := Take(s, 6);
    var r := Take(Keys(s), 6);
    OnesKeys(recent);
    KeysTake(s, 6);
    TopByKey(t, key, 6);
    forall x, y | x in Ids(recent) && x !in r && y in r
      ensures RecentScore(history, now, x, asWritten) <= RecentScore(history, now, y, asWritten)
    {
      var e := KeyWitness(t, x);
      var f := KeyWitness(p, y);
      OnesTotal(recent, x);
      OnesTotal(recent, y);
      assert key(e) <= key(f);
    }
  }

  /** Of a descending sort by `key`, an entry whose key is left out of the
      first `n` is ranked no higher than any entry kept. */
  lemma {:induction false} TopByKey(t: seq<Weight>, key: Weight -> real, n: nat)
    ensures var p := Take(SortDesc(t, key), n);
      (forall f | f in p :: f in t) &&
      forall e, f | e in t && e.key !in Keys(p) && f in p :: key(e) <= key(f)
  {
    var p := Take(SortDesc(t, key), n);
    SortedPrefixIsTop(t, key, n);
    forall e, f | e in t && e.key !in Keys(p) && f in p ensures key(e) <= key(f) {
      assert e !in p by {
        if e in p { KeyOf(p, e); }
      }
      assert e in multiset(t) - multiset(p);
    }
  }

  // -------------------------------------------------------------- statistics

  /** The uses of one tool. */
  function UsesOf(history: seq<Usage>, id: string): seq<Usage>
  {
    Filter(history, (u: Usage) => u.toolId == id)
  }

  lemma {:induction false} UsesOfLaws(history: seq<Usage>, id: string)
    ensures |UsesOf(history, id)| == Uses(history, id)
    ensures forall u :: u in UsesOf(history, id) <==> u in history && u.toolId == id
    ensures UsesOf(history, id) == [] <==> id !in Ids(history)
  {
    var f := (u: Usage) => u.toolId == id;
    FilterMembers(history, f);
    if history != [] {
      var p := history[..|history| - 1];
      var x := history[|history| - 1];
      assert history == p + [x];
      FilterSnoc(p, x, f);
      UsesOfLaws(p, id);
      assert Ids(history) == Ids(p) + [x.toolId];
    }
  }

  /** `Math.max(...us.map(u => u.timestamp))` */
  function MaxTimestamp(us: seq<Usage>): (r: int)
    requires us != []
    ensures forall u | u in us :: u.timestamp <= r
    ensures exists u | u in us :: u.timestamp == r
  {
    if |us| == 1 then us[0].timestamp
    else
      var m := MaxTimestamp(us[..|us| - 1]);
      assert forall u | u in us :: u in us[..|us| - 1] || u == us[|us| - 1];
      assert us[..|us| - 1] <= us;
      if us[|us| - 1].timestamp > m then us[|us| - 1].timestamp else m
  }

  /** One count per use with a non-empty workflow, keyed by the workflow. */
  function Workflows(us: seq<Usage>): (r: seq<Weight>)
    ensures forall w | w in r :: w.weight == 1.0 && w.key != "" && exists u | u in us :: u.workflow == Some(w.key)
  {
    if us == [] then []
    else
      var u := us[|us| - 1];
      Workflows(us[..|us| - 1]) + (if u.workflow.Some? && u.workflow.value != "" then [Weight(u.workflow.value, 1.0)] else [])
  }

  /** The key with the largest total, the first seen on a tie, and `None`
      for no events. */
  function Favorite(evs: seq<Weight>): (r: Option<string>)
    ensures r.None? <==> evs == []
    ensures r.Some? ==> (r.value in Keys(evs) &&
      forall k | k in Keys(evs) :: Total(evs, k) <= Total(evs, r.value))
  {
    var s := ByCount(TallyEntries(evs));
    FavoriteLaws(evs);
    if s == [] then None else Some(s[0].key)
  }

  lemma FavoriteLaws(evs: seq<Weight>)
    ensures var s := ByCount(TallyEntries(evs));
      (s == [] <==> evs == []) &&
      (s != [] ==> (s[0].key in Keys(evs) &&
        forall k | k in Keys(evs) :: Total(evs, k) <= Total(evs, s[0].key)))
  {
    var t := TallyEntries(evs);
    ByCountKeeps(t);
    var s := ByCount(t);
    if evs != [] {
      assert evs[|evs| - 1].key in Keys(evs);
      assert Keys(s) != [];
    }
    if s != [] {
      FirstIsLargest(t, s, evs);
    }
  }

  lemma FirstIsLargest(t: seq<Weight>, s: seq<Weight>, evs: seq<Weight>)
    requires s != []
    requires forall e | e in t :: e.weight == Total(evs, e.key)
    requires forall e :: e in s <==> e in t
    requires forall k :: k in Keys(s) <==> k in Keys(evs)
    requires forall i, j | 0 <= i < j < |s| :: s[i].weight >= s[j].weight
    ensures s[0].key in Keys(evs)
    ensures forall k | k in Keys(evs) :: Total(evs, k) <= Total(evs, s[0].key)
  {
    assert s[0] in t;
    forall k | k in Keys(evs) ensures Total(evs, k) <= Total(evs, s[0].key) {
      var j :| 0 <= j < |s| && s[j].key == k;
      assert s[j] in t;
      assert j == 0 || s[0].weight >= s[j].weight;
    }
  }

  /** The workflow seen most often among the uses, the first seen on a tie,
      and `None` when no use names one. */
  function FavoriteContext(us: seq<Usage>): (r: Option<string>)
    ensures r.None? <==> Workflows(us) == []
    ensures r.Some? ==> (r.value in Keys(Workflows(us)) &&
      forall k | k in Keys(Workflows(us)) :: Total(Workflows(us), k) <= Total(Workflows(us), r.value))
  {
    Favorite(Workflows(us))
  }

  /** What `getToolStats` returns: for a tool never used, zero uses and no
      last use; otherwise its statistics. */
  datatype ToolStats =
    | NeverUsed
    | Used(totalUsage: nat, lastUsed: int, daysSinceLastUsed: real,
           favoriteContext: Option<string>, usageFrequency: real)

  /** `getToolStats(toolId)` at time `now`. */
  function GetToolStats(history: seq<Usage>, id: string, now: int): (r: ToolStats)
    ensures r.NeverUsed? <==> id !in Ids(history)
    ensures r.Used? ==> r.totalUsage == Uses(history, id) > 0
    ensures r.Used? ==> ((forall u | u in history && u.toolId == id :: u.timestamp <= r.lastUsed) &&
      exists u | u in history && u.toolId == id :: u.timestamp == r.lastUsed)
    ensures r.Used? ==> r.favoriteContext == FavoriteContext(UsesOf(history, id))
  {
    var uses := UsesOf(history, id);
    UsesOfLaws(history, id);
    if uses == [] then NeverUsed
    else
      var last := MaxTimestamp(uses);
      Used(|uses|, last, (now - last) as real / 86400000.0, FavoriteContext(uses),
           |uses| as real / Max(|history| as real / 50.0, 1.0))
  }

  /** What `getWorkflowMetrics` returns. */
  datatype Metrics = Metrics(sessionDuration: int, toolsUsed: nat, uniqueTools: nat,
                             averageTimePerTool: real, toolEfficiency: real)

  /** `getWorkflowMetrics` at time `now`: the session's length, its number of
      distinct tools, and the two ratios, which are 0 and 1 on an empty session. */
  function WorkflowMetrics(session: seq<Usage>, startTime: int, now: int): (r: Metrics)
    ensures r.sessionDuration == now - startTime
    ensures r.toolsUsed == |session|
    ensures r.uniqueTools == |set x | x in Ids(session)|
    ensures r.uniqueTools <= r.toolsUsed && (r.uniqueTools == 0 <==> r.toolsUsed == 0)
    ensures session == [] ==> r.averageTimePerTool == 0.0 && r.toolEfficiency == 1.0
    ensures session != [] ==> r.toolEfficiency >= 1.0
  {
    var ids := Ids(session);
    var unique := |Dedupe(ids)|;
    UniqueLaws(ids);
    Metrics(now - startTime, |session|, unique,
            if |session| > 0 then (now - startTime) as real / |session| as real else 0.0,
            Efficiency(|session|, unique))
  }

  lemma UniqueLaws(ids: seq<string>)
    ensures |Dedupe(ids)| == |set x | x in ids| <= |ids|
    ensures |Dedupe(ids)| == 0 <==> ids == []
  {
    DedupeCard(ids);
    assert ids != [] ==> Dedupe(ids) != [];
  }

  /** Uses per distinct tool, 1 when there are none. */
  function Efficiency(uses: nat, unique: nat): (r: real)
    requires unique <= uses && (unique == 0 <==> uses == 0)
    ensures r >= 1.0
  {
    if unique > 0 then
      assert uses as real / unique as real * unique as real == uses as real;
      uses as real / unique as real
    else 1.0
  }

  // ----------------------------------------------------------------- the state

  /** The analytics state: the history and the current session. The three
      lists `updateAnalytics` recomputes change only when it runs, so they
      are the functions `Suggested`, `Recent` and `ContextAwareTools` of the
      state and of `updatedAt`, the time of the last recomputation. */
  class Analytics {
    var history: seq<Usage>
    var startTime: int
    var session: seq<Usage>
    var context: map<string, string>
    var updatedAt: int

    /** `suggestedTools`: at most four distinct tools, none of them among
        the last five of the session. */
    function Suggested(): (r: seq<string>)
      reads this
      ensures |r| <= 4 && NoDup(r)
      ensures forall x | x in r :: x !in Pattern(session)
    {
      SuggestedToolsLaws(session, history);
      SuggestedTools(session, history)
    }

    /** `recentTools`, ranked with the corrected score: at most six distinct
        tools, each used in the hour before the last recompute. */
    function Recent(): (r: seq<string>)
      reads this
      ensures |r| <= 6 && NoDup(r)
      ensures forall x | x in r :: x in Ids(RecentUses(history, updatedAt))
    {
      RecentTools(history, updatedAt)
    }

    /** `contextAwareTools`: at most three distinct tools among `move`,
        `text`, `eraser` and `brush`. */
    function ContextAwareTools(): (r: seq<string>)
      reads this
      ensures |r| <= 3 && NoDup(r)
      ensures forall x | x in r :: x == "move" || x == "text" || x == "eraser" || x == "brush"
    {
      ContextAwareLaws(session, updatedAt - startTime);
      ContextAware(session, updatedAt - startTime)
    }

    /** A fresh state at time `now`, analysed once as the source does on start. */
    constructor(now: int)
      ensures history == [] && session == [] && context == map[] && startTime == now && updatedAt == now
    {
      history := [];
      startTime := now;
      session := [];
      context := map[];
      updatedAt := now;
    }

    /** `recordToolUsage` at time `now`: the same use, stamped with the
        session time so far and the previous session tool, goes to the end of
        the session and of the history; then the suggestions are recomputed. */
    method RecordToolUsage(toolId: string, workflow: Option<string>, now: int)
      modifies this`session, this`history, this`updatedAt
      ensures var prev := if old(session) == [] then None else Some(old(session)[|old(session)| - 1].toolId);
        var u := Usage(toolId, now, workflow, now - startTime, prev);
        session == old(session) + [u] && history == old(history) + [u]
      ensures updatedAt == now
    {
      var prev := if session == [] then None else Some(session[|session| - 1].toolId);
      var u := Usage(toolId, now, workflow, now - startTime, prev);
      session := session + [u];
      history := history + [u];
      UpdateAnalytics(now);
    }

    /** `updateAnalytics` at time `now`: from here on the three lists are
        those of the current state at `now`. */
    method UpdateAnalytics(now: int)
      modifies this`updatedAt
      ensures updatedAt == now
    {
      updatedAt := now;
    }

    /** `resetSession` at time `now`: an empty session and context from `now`. */
    method ResetSession(now: int)
      modifies this`session, this`context, this`startTime, this`updatedAt
      ensures session == [] && context == map[] && startTime == now && updatedAt == now
    {
      startTime := now;
      session := [];
      context := map[];
      UpdateAnalytics(now);
    }

    /** `updateContext`: the given entries override the session context's. */
    method UpdateContext(patch: map<string, string>)
      modifies this`context
      ensures context == old(context) + patch
      ensures forall k | k in patch :: context[k] == patch[k]
      ensures forall k | k in old(context) && k !in patch :: context[k] == old(context)[k]
    {
      context := context + patch;
    }

    /** `getMostUsedTools(limit)`: the loop counts the uses of each tool. */
    method MostUsedTools(limit: int) returns (r: seq<Weight>)
      ensures r == MostUsed(history, limit)
    {
      var counts := Dict([], map[]);
      var i := 0;
      while i < |history|
        invariant 0 <= i <= |history|
        invariant counts == Tally(Ones(history[..i]))
      {
        assert history[..i + 1][..i] == history[..i];
        assert Ones(history[..i + 1])[..i] == Ones(history[..i]);
        counts := AddWeight(counts, history[i].toolId, 1.0);
        i := i + 1;
      }
      assert history[..i] == history;
      TallyLaws(Ones(history));
      r := Slice0(ByCount(Entries(counts.order, counts.val)), limit);
    }
  }

  /** `updateSuggestedTools`: the two loops record the transitions of the
      session and of the history; the suggestions follow from them. */
  method ComputeSuggestedTools(session: seq<Usage>, history: seq<Usage>) returns (r: seq<string>)
    ensures r == SuggestedTools(session, history)
  {
    var sessionEvs := SessionLoop(Ids(session));
    var historyEvs := HistoryLoop(Ids(history));
    var pattern := Pattern(session);
    r := Pick(TransitionSuggestions(sessionEvs + historyEvs, pattern) + WorkflowSuggestions(pattern), pattern, 4);
  }

  /** The session loop of `updateSuggestedTools`. */
  method SessionLoop(ids: seq<string>) returns (evs: seq<Transition>)
    ensures evs == SessionTransitions(ids, |ids|)
  {
    evs := [];
    if |ids| == 0 { return; }
    var i := 1;
    while i < |ids|
      invariant 1 <= i <= |ids|
      invariant evs == SessionTransitions(ids, i)
    {
      var next := if i + 1 < |ids| then ids[i + 1] else "";
      if ids[i - 1] != "" && ids[i] != "" && next != "" && next != ids[i] {
        evs := evs + [Transition(ids[i - 1] + "->" + ids[i], next, 1.0)];
      }
      i := i + 1;
    }
  }

  /** The history loop of `updateSuggestedTools`. */
  method HistoryLoop(ids: seq<string>) returns (evs: seq<Transition>)
    ensures evs == HistoryTransitions(ids, |ids|)
  {
    evs := [];
    if |ids| < 2 { return; }
    var i := 2;
    while i < |ids|
      invariant 2 <= i <= |ids|
      invariant evs == HistoryTransitions(ids, i)
    {
      if ids[i - 2] != "" && ids[i - 1] != "" && ids[i] != "" {
        evs := evs + [Transition(ids[i - 2] + "->" + ids[i - 1], ids[i], 0.5)];
      }
      i := i + 1;
    }
  }
}
