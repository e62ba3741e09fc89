/** The token counter's cache: what overlapping calls may read from it, and what it evicts. */
module TokenCounter {
  import opened Options
  import opened JsonValues
  import opened Counting

  datatype Entry = Entry(key: string, tokens: int)

  /** A count that the provider returned for some posted bytes and identity. */
  datatype Answer = Answer(stripped: string, auth: Headers, tokens: int)

  datatype Response = NetworkError | Reply(status: int, body: Option<Json>)

  /** What a call ends with: a count, no count, or an exception. */
  datatype Outcome = Counted(tokens: int) | Unknown | Raised

  /** The count in a response. A boolean counts as an integer, as in Python. */
  function TokensIn(r: Response): Outcome {
    match r
    case NetworkError => Unknown
    case Reply(status, body) =>
      if status == 429 || status >= 500 || status != 200 then Unknown
      else
        match body
        case None => Unknown
        case Some(Obj(data)) =>
          (match Get(data, "input_tokens", Null)
           case Int(n) => Counted(n)
           case Bool(b) => Counted(if b then 1 else 0)
           case _ => Unknown)
        case Some(_) => Raised
  }

  /** A count comes from a reply of status 200 whose object holds it, and only a body that is
      no object raises. */
  lemma CountedExactly(r: Response, n: int)
    ensures TokensIn(r) == Counted(n) <==>
      && r.Reply? && r.status == 200 && r.body.Some? && r.body.value.Obj?
      && var fields := r.body.value.fields;
         "input_tokens" in fields
         && fields["input_tokens"] in {Int(n)} + (if n == 1 then {Bool(true)} else if n == 0 then {Bool(false)} else {})
    ensures TokensIn(r) == Raised <==> r.Reply? && r.status == 200 && r.body.Some? && !r.body.value.Obj?
  {
  }

  // ---- ordered dictionaries ----

  function Keys(cache: seq<Entry>): (keys: seq<string>)
    ensures |keys| == |cache| && forall i | 0 <= i < |keys| :: keys[i] == cache[i].key
  {
    seq(|cache|, i requires 0 <= i < |cache| => cache[i].key)
  }

  predicate Distinct(keys: seq<string>) { forall i, j | 0 <= i < j < |keys| :: keys[i] != keys[j] }

  /** Where a key sits, or the length. */
  function Find(cache: seq<Entry>, key: string): (i: nat)
    ensures i <= |cache| && (i < |cache| ==> cache[i].key == key)
    ensures i == |cache| <==> key !in Keys(cache)
  {
    if cache == [] then 0
    else if cache[|cache| - 1].key == key then |cache| - 1
    else
      var i := Find(cache[..|cache| - 1], key);
      if i == |cache| - 1 then |cache| else i
  }

  function Bound(maxCache: int): nat { if maxCache < 0 then 0 else maxCache }

  /** The cached count of a key. */
  function Cached(cache: seq<Entry>, key: string): Option<int> {
    var i := Find(cache, key);
    if i < |cache| then Some(cache[i].tokens) else None
  }

  /** The entry of a key moved to the end, if there is one. */
  function Refreshed(cache: seq<Entry>, key: string): seq<Entry> {
    var i := Find(cache, key);
    if i < |cache| then cache[..i] + cache[i + 1..] + [cache[i]] else cache
  }

  /** A count stored in place or as the newest entry, the oldest going when there is one too
      many. */
  function Stored(cache: seq<Entry>, e: Entry, maxCache: int): seq<Entry> {
    var i := Find(cache, e.key);
    var all := if i < |cache| then cache[i := e] else cache + [e];
    if |all| > maxCache then all[1..] else all
  }

  // ---- recency ----

  /** The keys without one of them. */
  function Drop(keys: seq<string>, key: string): seq<string> {
    if keys == [] then []
    else
      var front, last := Drop(keys[..|keys| - 1], key), keys[|keys| - 1];
      if last == key then front else front + [last]
  }

  /** The keys used so far, in the order of their last use. */
  function Recency(used: seq<string>): seq<string> {
    if used == [] then [] else Drop(Recency(used[..|used| - 1]), used[|used| - 1]) + [used[|used| - 1]]
  }

  function Newest(keys: seq<string>, n: nat): seq<string> {
    if |keys| <= n then keys else keys[|keys| - n..]
  }

  lemma {:induction false} DropConcat(a: seq<string>, b: seq<string>, key: string)
    ensures Drop(a + b, key) == Drop(a, key) + Drop(b, key)
  {
    if b == [] {
      assert a + b == a;
    } else {
      assert (a + b)[..|a + b| - 1] == a + b[..|b| - 1];
      DropConcat(a, b[..|b| - 1], key);
    }
  }

  lemma {:induction false} DropAbsent(keys: seq<string>, key: string)
    requires key !in keys
    ensures Drop(keys, key) == keys
  {
    if keys != [] {
      DropAbsent(keys[..|keys| - 1], key);
      assert keys[|keys| - 1] in keys && keys == keys[..|keys| - 1] + [keys[|keys| - 1]];
    }
  }

  /** Dropping a key that occurs once drops its place. */
  lemma DropAt(keys: seq<string>, i: nat)
    requires i < |keys| && Distinct(keys)
    ensures Drop(keys, keys[i]) == keys[..i] + keys[i + 1..]
  {
    hide Drop;
    var front, back := keys[..i], keys[i + 1..];
    assert keys == front + [keys[i]] + back;
    DropConcat(front + [keys[i]], back, keys[i]);
    DropConcat(front, [keys[i]], keys[i]);
    DropAbsent(front, keys[i]);
    DropAbsent(back, keys[i]);
    DropIt(keys[i]);
  }

  lemma DropIt(key: string)
    ensures Drop([key], key) == []
  {
  }

  lemma {:induction false} DropKeepsDistinct(keys: seq<string>, key: string)
    requires Distinct(keys)
    ensures Distinct(Drop(keys, key)) && key !in Drop(keys, key) && forall k | k in Drop(keys, key) :: k in keys
  {
    hide Distinct;
    DistinctNone();
    if keys != [] {
      var front, last := keys[..|keys| - 1], keys[|keys| - 1];
      DistinctAppend(front, last);
      assert keys == front + [last];
      DropKeepsDistinct(front, key);
      DistinctAppend(Drop(front, key), last);
    }
  }

  lemma DistinctNone()
    ensures Distinct([])
  {
  }

  lemma DistinctAppend(keys: seq<string>, key: string)
    ensures Distinct(keys + [key]) <==> Distinct(keys) && key !in keys
  {
    var all := keys + [key];
    if Distinct(all) {
      forall i, j | 0 <= i < j < |keys| ensures keys[i] != keys[j] { assert all[i] != all[j]; }
      forall i | 0 <= i < |keys| ensures keys[i] != key { assert all[i] != all[|keys|]; }
    }
  }

  lemma DistinctParts(front: seq<string>, back: seq<string>)
    requires Distinct(front + back)
    ensures Distinct(back) && forall k | k in back :: k !in front
  {
    var all := front + back;
    forall i, j | 0 <= i < j < |back| ensures back[i] != back[j] { assert all[|front| + i] != all[|front| + j]; }
    forall k | k in back ensures k !in front {
      var j :| 0 <= j < |back| && back[j] == k;
      forall i | 0 <= i < |front| ensures front[i] != k { assert all[i] != all[|front| + j]; }
    }
  }

  lemma {:induction false} RecencyIsDistinct(used: seq<string>)
    ensures Distinct(Recency(used))
  {
    if used != [] {
      RecencyIsDistinct(used[..|used| - 1]);
      DropKeepsDistinct(Recency(used[..|used| - 1]), used[|used| - 1]);
    }
    hide Drop;
  }

  /** Using a key among the newest moves it to the end of them. */
  lemma NewestHit(recency: seq<string>, key: string, n: nat)
    requires Distinct(recency) && key in Newest(recency, n)
    ensures Newest(Drop(recency, key) + [key], n) == Drop(Newest(recency, n), key) + [key]
  {
    hide Drop, Distinct, Newest;
    var newest := Newest(recency, n);
    var older := NewestSplits(recency, n);
    DistinctParts(older, newest);
    DropConcat(older, newest, key);
    var i :| 0 <= i < |newest| && newest[i] == key;
    DropAbsent(older, key);
    DropAt(newest, i);
    var moved := Drop(newest, key) + [key];
    assert Drop(recency, key) + [key] == older + moved;
    NewestOf(older, moved, n);
  }

  lemma NewestSplits(keys: seq<string>, n: nat) returns (older: seq<string>)
    ensures keys == older + Newest(keys, n) && (older == [] || |Newest(keys, n)| == n) && |Newest(keys, n)| <= n
  {
    older := keys[..|keys| - |Newest(keys, n)|];
  }

  lemma NewestOf(older: seq<string>, newest: seq<string>, n: nat)
    requires |newest| <= n && (older == [] || |newest| == n)
    ensures Newest(older + newest, n) == newest
  {
  }

  /** Using another key adds it at the end, and the oldest goes when there is no room. */
  lemma NewestMiss(recency: seq<string>, key: string, n: nat)
    requires key !in Newest(recency, n)
    ensures Newest(Drop(recency, key) + [key], n) == Newest(Newest(recency, n) + [key], n)
  {
    hide Drop;
    var newest := Newest(recency, n);
    var older := recency[..|recency| - |newest|];
    assert recency == older + newest;
    DropConcat(older, newest, key);
    DropAbsent(newest, key);
    if |recency| <= n {
      assert older == [];
      DropAbsent(older, key);
    } else {
      assert Drop(recency, key) + [key] == Drop(older, key) + (newest + [key]);
    }
  }

  // ---- the cache ----

  class Cache {
    const rt: Runtime
    const maxCache: int
    var entries: seq<Entry>
    /** Every count the provider returned, and every key used: read, or newly stored. */
    ghost var answers: seq<Answer>
    ghost var used: seq<string>

    ghost predicate Valid()
      reads this
    {
      && Distinct(Keys(entries)) && |entries| <= Bound(maxCache)
      && forall e | e in entries :: Backed(rt, answers, e)
    }

    /** The cache holds the most recently used keys, oldest first. */
    ghost predicate LeastRecentlyUsedGoes()
      reads this
    {
      Keys(entries) == Newest(Recency(used), Bound(maxCache))
    }

    constructor (rt: Runtime, maxCache: int)
      ensures Valid() && LeastRecentlyUsedGoes()
      ensures this.rt == rt && this.maxCache == maxCache && entries == [] && answers == []
    {
      this.rt, this.maxCache, entries, answers, used := rt, maxCache, [], [], [];
    }

    /** The step before the request: a cached count is returned and becomes the newest. */
    method Lookup(stripped: string, auth: Headers) returns (cached: Option<int>)
      requires Valid()
      modifies this`entries, this`used
      ensures Valid() && (old(LeastRecentlyUsedGoes()) ==> LeastRecentlyUsedGoes())
      ensures var key, was := CacheKey(rt, stripped, auth), old(entries);
        && cached == Cached(was, key) && entries == Refreshed(was, key)
        && used == if cached.Some? then old(used) + [key] else old(used)
    {
      hide Drop, Recency, Find, Newest, Backed;
      var key := CacheKey(rt, stripped, auth);
      var i := Find(entries, key);
      if i == |entries| { return None; }
      cached := Some(entries[i].tokens);
      HitKeys(entries, i, used, Bound(maxCache));
      entries := entries[..i] + entries[i + 1..] + [entries[i]];
      used := used + [key];
    }

    /** The step after a count arrived: it is stored, and an entry too many is evicted. */
    method Store(stripped: string, auth: Headers, tokens: int)
      requires Valid()
      modifies this
      ensures Valid() && answers == old(answers) + [Answer(stripped, auth, tokens)]
      ensures var key, was := CacheKey(rt, stripped, auth), old(entries);
        && entries == Stored(was, Entry(key, tokens), maxCache)
        && used == (if key in Keys(was) then old(used) else old(used) + [key])
        && (key !in Keys(was) && old(LeastRecentlyUsedGoes()) ==> LeastRecentlyUsedGoes())
    {
      hide Drop, Recency, Find, Newest, Backed;
      var key := CacheKey(rt, stripped, auth);
      ghost var answer := Answer(stripped, auth, tokens);
      forall e | e in entries ensures Backed(rt, answers + [answer], e) { StaysBacked(rt, answers, answer, e); }
      BackedByLast(rt, answers, answer);
      answers := answers + [answer];
      var i := Find(entries, key);
      if i < |entries| {
        assert Keys(entries[i := Entry(key, tokens)]) == Keys(entries);
        entries := entries[i := Entry(key, tokens)];
      } else {
        MissKeys(entries, Entry(key, tokens), used, Bound(maxCache));
        used := used + [key];
        entries := entries + [Entry(key, tokens)];
      }
      if |entries| > maxCache { entries := entries[1..]; }
    }

    /** A whole call that nothing interrupts. */
    method Count(payload: string, auth: Headers, post: (string, Headers) -> Response) returns (outcome: Outcome)
      requires Valid()
      modifies this
      ensures Valid() && (old(LeastRecentlyUsedGoes()) ==> LeastRecentlyUsedGoes())
      ensures old(AnswersOf(answers, post)) && PlainHeaders(auth) && CollisionFree(rt) ==>
        AnswersOf(answers, post) && outcome == Uncached(rt, payload, auth, post)
    {
      hide Recency, Newest, Backed, Find, CacheKey, TokensIn;
      var stripped := StripForCount(rt, payload);
      if stripped.None? { return Raised; }
      CachedWasAnswered(rt, entries, answers, stripped.value, auth);
      var cached := Lookup(stripped.value, auth);
      if cached.Some? { return Counted(cached.value); }
      outcome := TokensIn(post(stripped.value, auth));
      if outcome.Counted? { Store(stripped.value, auth, outcome.tokens); }
    }
  }

  /** Some answer of the provider has this entry's key and count. */
  ghost predicate Backed(rt: Runtime, answers: seq<Answer>, e: Entry) {
    exists a | a in answers :: CacheKey(rt, a.stripped, a.auth) == e.key && a.tokens == e.tokens
  }

  ghost predicate CollisionFree(rt: Runtime) { forall s, t | rt.digest(s) == rt.digest(t) :: s == t }

  /** The provider is deterministic: these answers are what it answers. */
  ghost predicate AnswersOf(answers: seq<Answer>, post: (string, Headers) -> Response) {
    forall a | a in answers :: PlainHeaders(a.auth) && TokensIn(post(a.stripped, a.auth)) == Counted(a.tokens)
  }

  /** The call without a cache. */
  function Uncached(rt: Runtime, payload: string, auth: Headers, post: (string, Headers) -> Response): Outcome {
    match StripForCount(rt, payload)
    case None => Raised
    case Some(stripped) => TokensIn(post(stripped, auth))
  }

  lemma StaysBacked(rt: Runtime, answers: seq<Answer>, answer: Answer, e: Entry)
    requires Backed(rt, answers, e)
    ensures Backed(rt, answers + [answer], e)
  {
    var a :| a in answers && CacheKey(rt, a.stripped, a.auth) == e.key && a.tokens == e.tokens;
    assert a in answers + [answer];
  }

  lemma BackedByLast(rt: Runtime, answers: seq<Answer>, answer: Answer)
    ensures Backed(rt, answers + [answer], Entry(CacheKey(rt, answer.stripped, answer.auth), answer.tokens))
  {
    assert answer in answers + [answer];
  }

  lemma MovedKeys(entries: seq<Entry>, i: nat)
    requires i < |entries|
    ensures Keys(entries[..i] + entries[i + 1..] + [entries[i]])
         == Keys(entries)[..i] + Keys(entries)[i + 1..] + [entries[i].key]
  {
  }

  lemma HitKeys(entries: seq<Entry>, i: nat, used: seq<string>, n: nat)
    requires i < |entries| && Distinct(Keys(entries))
    ensures Distinct(Keys(entries[..i] + entries[i + 1..] + [entries[i]]))
    ensures Keys(entries) == Newest(Recency(used), n) ==>
      Keys(entries[..i] + entries[i + 1..] + [entries[i]]) == Newest(Recency(used + [entries[i].key]), n)
  {
    hide Drop, Newest, Distinct, Keys;
    var key := entries[i].key;
    MovedKeys(entries, i);
    DropAt(Keys(entries), i);
    DropKeepsDistinct(Keys(entries), key);
    DistinctAppend(Drop(Keys(entries), key), key);
    RecencyIsDistinct(used);
    assert (used + [key])[..|used + [key]| - 1] == used;
    if Keys(entries) == Newest(Recency(used), n) {
      assert Keys(entries)[i] == key;
      NewestHit(Recency(used), key, n);
    }
  }

  lemma MissKeys(entries: seq<Entry>, e: Entry, used: seq<string>, n: nat)
    requires e.key !in Keys(entries) && |entries| <= n
    ensures Keys(entries) == Newest(Recency(used), n) ==>
      Keys(if |entries| + 1 > n then (entries + [e])[1..] else entries + [e]) == Newest(Recency(used + [e.key]), n)
  {
    hide Drop;
    assert Keys(entries + [e]) == Keys(entries) + [e.key] && Keys((entries + [e])[1..]) == Keys(entries + [e])[1..];
    assert (used + [e.key])[..|used + [e.key]| - 1] == used;
    if Keys(entries) == Newest(Recency(used), n) { NewestMiss(Recency(used), e.key, n); }
  }

  /** A cached count was returned by the provider for these posted bytes and this identity. */
  lemma CachedWasAnswered(rt: Runtime, entries: seq<Entry>, answers: seq<Answer>, stripped: string, auth: Headers)
    requires forall e | e in entries :: Backed(rt, answers, e)
    ensures var i := Find(entries, CacheKey(rt, stripped, auth));
      i < |entries| && CollisionFree(rt) && PlainHeaders(auth) && (forall a | a in answers :: PlainHeaders(a.auth)) ==>
        Answer(stripped, auth, entries[i].tokens) in answers
  {
    hide KeyText, PlainHeaders, Find;
    var i := Find(entries, CacheKey(rt, stripped, auth));
    if i < |entries| && CollisionFree(rt) && PlainHeaders(auth) && (forall a | a in answers :: PlainHeaders(a.auth)) {
      assert entries[i] in entries;
      var a :| a in answers && CacheKey(rt, a.stripped, a.auth) == entries[i].key && a.tokens == entries[i].tokens;
      KeyTextInjective(a.stripped, a.auth, stripped, auth);
      assert a == Answer(stripped, auth, entries[i].tokens);
    }
  }

  // ---- overlapping calls ----

  /** The two steps of a call, between which other calls may run. */
  datatype Step = Ask(stripped: string, auth: Headers) | Arrive(answer: Answer)

  /** The counts that have arrived, in order. */
  function Arrived(steps: seq<Step>): seq<Answer> {
    if steps == [] then []
    else
      var front, s := Arrived(steps[..|steps| - 1]), steps[|steps| - 1];
      if s.Arrive? then front + [s.answer] else front
  }

  predicate AllPlain(steps: seq<Step>) {
    forall s | s in steps :: PlainHeaders(if s.Ask? then s.auth else s.answer.auth)
  }

  lemma {:induction false} ArrivedArePlain(steps: seq<Step>)
    requires AllPlain(steps)
    ensures forall a | a in Arrived(steps) :: PlainHeaders(a.auth)
  {
    hide PlainHeaders;
    if steps != [] {
      assert steps[|steps| - 1] in steps;
      ArrivedArePlain(steps[..|steps| - 1]);
    }
  }

  lemma ArrivedNone()
    ensures Arrived([]) == []
  {
  }

  lemma ArrivedAppend(steps: seq<Step>, s: Step)
    ensures Arrived(steps + [s]) == if s.Arrive? then Arrived(steps) + [s.answer] else Arrived(steps)
  {
    assert (steps + [s])[..|steps + [s]| - 1] == steps;
  }

  /** The cache after some steps: a pure fold of what the two steps do. */
  function CacheAfter(rt: Runtime, maxCache: int, steps: seq<Step>): seq<Entry> {
    if steps == [] then []
    else StepOn(rt, maxCache, CacheAfter(rt, maxCache, steps[..|steps| - 1]), steps[|steps| - 1])
  }

  function StepOn(rt: Runtime, maxCache: int, cache: seq<Entry>, s: Step): seq<Entry> {
    match s
    case Ask(stripped, auth) => Refreshed(cache, CacheKey(rt, stripped, auth))
    case Arrive(a) => Stored(cache, Entry(CacheKey(rt, a.stripped, a.auth), a.tokens), maxCache)
  }

  /** What a step reads from the cache. */
  function SeenBy(rt: Runtime, cache: seq<Entry>, s: Step): Option<int> {
    match s
    case Ask(stripped, auth) => Cached(cache, CacheKey(rt, stripped, auth))
    case Arrive(_) => None
  }

  lemma CacheAppend(rt: Runtime, maxCache: int, steps: seq<Step>, s: Step)
    ensures CacheAfter(rt, maxCache, steps + [s]) == StepOn(rt, maxCache, CacheAfter(rt, maxCache, steps), s)
  {
    assert (steps + [s])[..|steps + [s]| - 1] == steps;
  }

  /** However calls overlap, each reads exactly what the fold of the earlier steps holds; the
      cache is within its bound at every moment; and every cached count was returned, earlier,
      for the very bytes and identity that were asked for. */
  method RunSteps(rt: Runtime, maxCache: int, steps: seq<Step>) returns (seen: seq<Option<int>>, entries: seq<Entry>)
    ensures entries == CacheAfter(rt, maxCache, steps) && |seen| == |steps|
    ensures forall i | 0 <= i < |steps| :: seen[i] == SeenBy(rt, CacheAfter(rt, maxCache, steps[..i]), steps[i])
    ensures forall i | 0 <= i <= |steps| :: |CacheAfter(rt, maxCache, steps[..i])| <= Bound(maxCache)
    ensures AllPlain(steps) && CollisionFree(rt) ==>
      forall i | 0 <= i < |steps| && steps[i].Ask? && seen[i].Some? ::
        Answer(steps[i].stripped, steps[i].auth, seen[i].value) in Arrived(steps[..i])
  {
    hide AllPlain, PlainHeaders, CacheKey, Find, Keys, Backed, Arrived, CollisionFree, Cache.LeastRecentlyUsedGoes,
         CacheAfter, Refreshed, Stored, SoundAt;
    ArrivedNone();
    NoSteps(rt, maxCache);
    assert steps[..0] == [];
    var cache := new Cache(rt, maxCache);
    seen := [];
    for i := 0 to |steps|
      invariant fresh(cache) && cache.Valid() && cache.rt == rt && cache.maxCache == maxCache
      invariant cache.answers == Arrived(steps[..i]) && cache.entries == CacheAfter(rt, maxCache, steps[..i])
      invariant |seen| == i && forall k | 0 <= k < i :: SoundAt(rt, maxCache, steps, k, seen[k])
    {
      assert steps[..i + 1] == steps[..i] + [steps[i]] && steps[i] in steps;
      ArrivedAppend(steps[..i], steps[i]);
      CacheAppend(rt, maxCache, steps[..i], steps[i]);
      var read: Option<int> := None;
      ghost var before, answered := cache.entries, cache.answers;
      if AllPlain(steps) { PlainStep(steps, i); }
      match steps[i] {
        case Ask(stripped, auth) =>
          CachedWasAnswered(rt, cache.entries, cache.answers, stripped, auth);
          read := cache.Lookup(stripped, auth);
        case Arrive(answer) =>
          cache.Store(answer.stripped, answer.auth, answer.tokens);
      }
      StepIsSound(rt, maxCache, steps, i, before, answered, read);
      seen := seen + [read];
    }
    assert steps[..|steps|] == steps;
    entries := cache.entries;
    forall i | 0 <= i < |steps| ensures SoundAt(rt, maxCache, steps, i, seen[i]) {}
    SoundAtMeans(rt, maxCache, steps, seen);
  }

  /** One read of a run is what it should be. */
  ghost predicate SoundAt(rt: Runtime, maxCache: int, steps: seq<Step>, i: nat, read: Option<int>)
    requires i < |steps|
  {
    var cache := CacheAfter(rt, maxCache, steps[..i]);
    && |cache| <= Bound(maxCache) && read == SeenBy(rt, cache, steps[i])
    && (AllPlain(steps) && CollisionFree(rt) && steps[i].Ask? && read.Some? ==>
          Answer(steps[i].stripped, steps[i].auth, read.value) in Arrived(steps[..i]))
  }

  lemma StepIsSound(
    rt: Runtime, maxCache: int, steps: seq<Step>, i: nat, cache: seq<Entry>, answers: seq<Answer>, read: Option<int>)
    requires i < |steps| && cache == CacheAfter(rt, maxCache, steps[..i]) && answers == Arrived(steps[..i])
    requires |cache| <= Bound(maxCache) && read == SeenBy(rt, cache, steps[i])
    requires AllPlain(steps) && CollisionFree(rt) && steps[i].Ask? && read.Some? ==>
      Answer(steps[i].stripped, steps[i].auth, read.value) in answers
    ensures SoundAt(rt, maxCache, steps, i, read)
  {
  }

  lemma SoundAtMeans(rt: Runtime, maxCache: int, steps: seq<Step>, seen: seq<Option<int>>)
    requires |seen| == |steps| && forall i | 0 <= i < |steps| :: SoundAt(rt, maxCache, steps, i, seen[i])
    ensures forall i | 0 <= i < |steps| :: seen[i] == SeenBy(rt, CacheAfter(rt, maxCache, steps[..i]), steps[i])
    ensures forall i | 0 <= i < |steps| :: |CacheAfter(rt, maxCache, steps[..i])| <= Bound(maxCache)
    ensures AllPlain(steps) && CollisionFree(rt) ==>
      forall i | 0 <= i < |steps| && steps[i].Ask? && seen[i].Some? ::
        Answer(steps[i].stripped, steps[i].auth, seen[i].value) in Arrived(steps[..i])
  {
    hide CacheAfter, Arrived, SeenBy, AllPlain, CollisionFree;
  }

  lemma PlainStep(steps: seq<Step>, i: nat)
    requires AllPlain(steps) && i < |steps|
    ensures forall a | a in Arrived(steps[..i]) :: PlainHeaders(a.auth)
    ensures steps[i].Ask? ==> PlainHeaders(steps[i].auth)
  {
    hide PlainHeaders;
    assert steps[i] in steps && forall s | s in steps[..i] :: s in steps;
    ArrivedArePlain(steps[..i]);
  }

  lemma NoSteps(rt: Runtime, maxCache: int)
    ensures CacheAfter(rt, maxCache, []) == []
  {
  }
}
