/**
 The difficulty of the next block and its two caches: the window of timestamps and work that is
 slid by one block when the chain has grown by one, and the last answer, kept under the hash of
 the tip. The routine always rebuilds the window as well and compares.
 */
module DifficultyCache {
  import opened Ledger
  import opened Windows
  import opened Chain

  /**
   `height` is the chain length the window was built for (0: none), `reset` says that the chain
   has been rewritten since the last finished batch, `top` is the tip `answer` was computed for.
   */
  datatype Cache = Cache(stamps: seq<nat>, works: seq<nat>, height: nat, reset: bool, top: Option<Hash>, answer: nat)

  // ---------- one query ----------

  /** Whether the window can be slid to the chain of length `length`. */
  predicate Slides(k: Cache, length: nat) {
    !k.reset && k.height != 0 && length == k.height + 1 && WINDOW <= |k.stamps|
  }

  /** The last `WINDOW` elements of `s`. */
  function Tail(s: seq<nat>): seq<nat> {
    if |s| <= WINDOW then s else s[|s| - WINDOW..]
  }

  /** What a query leaves in the cache: the rebuilt window, and the answer unless the rule throws. */
  function Asked(r: Rules, k: Cache, c: seq<Node>): Cache
    requires c != []
  {
    var w := k.(stamps := Stamps(Window(c)), works := Works(Window(c)), height := |c|);
    var d := r.ahead(c, |c|);
    if d.None? then w else w.(top := Some(r.hash(Last(c).block)), answer := d.value)
  }

  /** The window in the cache, if it is to be used, belongs to the chain it says it does. */
  ghost predicate WindowOk(k: Cache, c: seq<Node>) {
    k.reset || k.height == 0 ||
    (&& k.height <= |c|
     && k.stamps == Stamps(Window(c[..k.height])) && k.works == Works(Window(c[..k.height])))
  }

  /** The answer was computed on some chain with the tip it is kept under. */
  ghost predicate AnswerOk(r: Rules, g: Node, k: Cache) {
    k.top.None? || exists p :: AnswerFor(r, g, k, p)
  }

  ghost predicate AnswerFor(r: Rules, g: Node, k: Cache, p: seq<Node>) {
    Path(r, g, p) && k.top == Some(r.hash(Last(p).block)) && r.ahead(p, |p|) == Some(k.answer)
  }

  ghost predicate CacheOk(r: Rules, g: Node, k: Cache, c: seq<Node>) {
    WindowOk(k, c) && AnswerOk(r, g, k)
  }

  lemma {:induction false} WindowSlides(c: seq<Node>)
    requires WINDOW + 2 <= |c|
    ensures Window(c) == (Window(c[..|c| - 1]) + [c[|c| - 1]])[1..]
  {
    var b := c[..|c| - 1];
    assert c == b + [c[|c| - 1]];
    assert Window(c) == c[|c| - WINDOW..];
  }

  /** Sliding the cached window by one block gives exactly the window rebuilt from the chain. */
  lemma {:induction false} SlideIsRebuild(k: Cache, c: seq<Node>)
    requires WindowOk(k, c) && Slides(k, |c|)
    ensures Tail(k.stamps + [c[|c| - 1].block.timestamp]) == Stamps(Window(c))
    ensures Tail(k.works + [c[|c| - 1].work]) == Works(Window(c))
  {
    var b, x := c[..|c| - 1], c[|c| - 1];
    WindowSlides(c);
    ListsPush(Window(b), x);
    assert Stamps((Window(b) + [x])[1..]) == Stamps(Window(b) + [x])[1..];
    assert Works((Window(b) + [x])[1..]) == Works(Window(b) + [x])[1..];
  }

  /** An answer kept under the hash of the tip is the answer for this chain. */
  lemma {:induction false} AnswerIsCurrent(r: Rules, g: Node, k: Cache, c: seq<Node>)
    requires Lawful(r) && g.block.height == 0 && Path(r, g, c) && AnswerOk(r, g, k)
    requires k.top == Some(r.hash(Last(c).block))
    ensures r.ahead(c, |c|) == Some(k.answer)
  {
    var p :| AnswerFor(r, g, k, p);
    assert SameHash(r, Last(p).block, Last(c).block);
    PathUnique(r, g, p, c);
  }

  lemma {:induction false} AskedOk(r: Rules, g: Node, k: Cache, c: seq<Node>)
    requires Path(r, g, c) && CacheOk(r, g, k, c)
    ensures CacheOk(r, g, Asked(r, k, c), c)
  {
    assert c[..|c|] == c;
    var q := Asked(r, k, c);
    if r.ahead(c, |c|).Some? {
      assert AnswerFor(r, g, q, c);
    } else if k.top.Some? {
      var p :| AnswerFor(r, g, k, p);
      assert AnswerFor(r, g, q, p);
    }
  }

  // ---------- runs ----------

  /** What happens around the cache; rewriting (pop, switch, alternative block) raises the flag. */
  datatype Event = Extend(block: Node) | Rewrite(chain: seq<Node>) | Query | EndBatch

  datatype World = World(chain: seq<Node>, cache: Cache)

  function Disturbed(k: Cache): Cache { k.(height := 0, reset := true) }

  function BatchEnded(k: Cache): Cache { if k.reset then k.(height := 0, reset := false) else k }

  function Next(r: Rules, w: World, e: Event): World {
    match e
    case Extend(x) => w.(chain := w.chain + [x])
    case Rewrite(c) => World(c, Disturbed(w.cache))
    case Query => if w.chain == [] then w else w.(cache := Asked(r, w.cache, w.chain))
    case EndBatch => w.(cache := BatchEnded(w.cache))
  }

  /** Every chain of the run is a chain of accepted blocks. */
  ghost predicate Proper(r: Rules, g: Node, w: World, es: seq<Event>)
    decreases |es|
  {
    Path(r, g, w.chain) && (es == [] || Proper(r, g, Next(r, w, es[0]), es[1..]))
  }

  function Run(r: Rules, w: World, es: seq<Event>): World
    decreases |es|
  {
    if es == [] then w else Run(r, Next(r, w, es[0]), es[1..])
  }

  lemma {:induction false} AnswerStays(r: Rules, g: Node, k: Cache, q: Cache)
    requires AnswerOk(r, g, k) && q.top == k.top && q.answer == k.answer
    ensures AnswerOk(r, g, q)
  {
    if k.top.Some? {
      var p :| AnswerFor(r, g, k, p);
      assert AnswerFor(r, g, q, p);
    }
  }

  lemma {:induction false} NextOk(r: Rules, g: Node, w: World, e: Event)
    requires Path(r, g, w.chain) && CacheOk(r, g, w.cache, w.chain)
    ensures CacheOk(r, g, Next(r, w, e).cache, Next(r, w, e).chain)
  {
    var t := Next(r, w, e);
    if e.Query? {
      AskedOk(r, g, w.cache, w.chain);
    } else {
      AnswerStays(r, g, w.cache, t.cache);
      if e.Extend? && w.cache.height <= |w.chain| {
        assert t.chain[..w.cache.height] == w.chain[..w.cache.height];
      }
    }
  }

  /** The comparison in a query would find nothing: no stale window, no stale answer. */
  ghost predicate Agrees(r: Rules, k: Cache, c: seq<Node>) {
    && c != []
    && (Slides(k, |c|) ==>
          && Tail(k.stamps + [Last(c).block.timestamp]) == Stamps(Window(c))
          && Tail(k.works + [Last(c).work]) == Works(Window(c)))
    && (k.top == Some(r.hash(Last(c).block)) ==> r.ahead(c, |c|) == Some(k.answer))
  }

  /** After every run of extending, rewriting, querying and ending batches both caches are right. */
  lemma {:induction false} RunAgrees(r: Rules, g: Node, w: World, es: seq<Event>)
    requires Lawful(r) && g.block.height == 0 && Proper(r, g, w, es) && CacheOk(r, g, w.cache, w.chain)
    ensures CacheOk(r, g, Run(r, w, es).cache, Run(r, w, es).chain)
    ensures Agrees(r, Run(r, w, es).cache, Run(r, w, es).chain)
    decreases |es|
  {
    if es == [] {
      if Slides(w.cache, |w.chain|) { SlideIsRebuild(w.cache, w.chain); }
      if w.cache.top == Some(r.hash(Last(w.chain).block)) { AnswerIsCurrent(r, g, w.cache, w.chain); }
    } else {
      NextOk(r, g, w, es[0]);
      RunAgrees(r, g, Next(r, w, es[0]), es[1..]);
    }
  }

  // ---------- the object ----------

  class Difficulty {
    var stamps: seq<nat>
    var works: seq<nat>
    var height: nat
    var reset: bool
    var top: Option<Hash>
    var answer: nat
    const r: Rules

    function State(): Cache
      reads this
    {
      Cache(stamps, works, height, reset, top, answer)
    }

    constructor(rules: Rules)
      ensures r == rules && State() == Cache([], [], 0, false, None, 0)
    {
      stamps, works, height, reset, top, answer, r := [], [], 0, false, None, 0, rules;
    }

    /** Push a block onto the window and drop from the front what is too much. */
    method Slide(x: Node)
      modifies this`stamps, this`works
      ensures stamps == Tail(old(stamps) + [x.block.timestamp]) && works == Tail(old(works) + [x.work])
    {
      stamps, works := stamps + [x.block.timestamp], works + [x.work];
      ghost var s, w := stamps, works;
      while WINDOW < |stamps|
        invariant |stamps| <= |s| && stamps == s[|s| - |stamps|..] && (WINDOW <= |stamps| || stamps == s)
        invariant works == w
        decreases |stamps|
      {
        stamps := stamps[1..];
      }
      while WINDOW < |works|
        invariant |works| <= |w| && works == w[|w| - |works|..] && (WINDOW <= |works| || works == w)
        invariant stamps == Tail(s)
        decreases |works|
      {
        works := works[1..];
      }
    }

    /**
     The difficulty after chain `c`. `consistent` says that the slid window was the rebuilt one and
     the kept answer the computed one, wherever they were compared.
     */
    method Query(c: seq<Node>, ghost g: Node) returns (d: Option<nat>, consistent: bool)
      requires Lawful(r) && g.block.height == 0 && Path(r, g, c) && CacheOk(r, g, State(), c)
      modifies this
      ensures State() == Asked(r, old(State()), c)
      ensures CacheOk(r, g, State(), c)
      ensures d == r.ahead(c, |c|) && consistent
    {
      ghost var k := State();
      AskedOk(r, g, k, c);
      var hash := r.hash(Last(c).block);
      var cached := if top == Some(hash) then Some(answer) else None;
      if reset { height := 0; }
      consistent := true;
      var length := |c|;
      var s, w := MainLists(c);
      if height != 0 && length == height + 1 && WINDOW <= |stamps| {
        SlideIsRebuild(k, c);
        Slide(Last(c));
        consistent := s == stamps && w == works;
      }
      stamps, works, height := s, w, length;
      assert AheadIsNext(r, c, |c|);
      d := r.next(s, w, length);
      if d.None? {
        if cached.Some? { AnswerIsCurrent(r, g, k, c); }
        return;
      }
      top, answer := Some(hash), d.value;
      if cached.Some? {
        AnswerIsCurrent(r, g, k, c);
        if cached.value != d.value { consistent := false; }
      }
    }

    /** The chain is about to be rewritten. */
    method Disturb()
      modifies this`height, this`reset
      ensures State() == Disturbed(old(State()))
    {
      height, reset := 0, true;
    }

    /** A batch of blocks was stored. */
    method EndBatch()
      modifies this`height, this`reset
      ensures State() == BatchEnded(old(State()))
    {
      if reset { height, reset := 0, false; }
    }
  }
}
