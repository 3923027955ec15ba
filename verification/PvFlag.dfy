/**
 The paravirtual flag word of one core (kern/dune.h) and the entry and exit
 path of vmx_launch (kern/vmx.c) that consumes it, one vCPU per core.
 */
module PvFlag {
  // ---- The word ----

  const IN_HOST: bv64 := 1
  const FLUSH_ON_REENTRY: bv64 := 2
  const CHANGE_CR3: bv64 := 4
  const FEATURE_MASK: bv64 := 7
  const CR3_MASK: bv64 := 0xFFFF_FFFF_FFFF_FFF8

  /** The address of a page-table root. */
  datatype Root = Root(bits: bv64)

  datatype Word = Word(host: bool, flush: bool, change: bool, root: Root)

  const ZERO := Word(false, false, false, Root(0))

  function Decode(w: bv64): Word {
    Word(w & IN_HOST != 0, w & FLUSH_ON_REENTRY != 0, w & CHANGE_CR3 != 0, Root(w & CR3_MASK))
  }

  /** A request to flush, and a request to change CR3. */
  function WithFlush(w: Word): Word { w.(flush := true) }
  function WithRoot(w: Word, r: Root): Word { w.(change := true, root := r) }

  lemma SameBits(v: bv64, w: bv64)
    requires (v & IN_HOST != 0) == (w & IN_HOST != 0)
    requires (v & FLUSH_ON_REENTRY != 0) == (w & FLUSH_ON_REENTRY != 0)
    requires (v & CHANGE_CR3 != 0) == (w & CHANGE_CR3 != 0)
    ensures v & IN_HOST == w & IN_HOST
    ensures v & FLUSH_ON_REENTRY == w & FLUSH_ON_REENTRY
    ensures v & CHANGE_CR3 == w & CHANGE_CR3
  {}

  lemma SameWord(v: bv64, w: bv64)
    requires v & IN_HOST == w & IN_HOST && v & FLUSH_ON_REENTRY == w & FLUSH_ON_REENTRY
    requires v & CHANGE_CR3 == w & CHANGE_CR3 && v & CR3_MASK == w & CR3_MASK
    ensures v == w
  {}

  /** Equal decoded words are equal words, so a compare-and-swap may compare them. */
  lemma DecodeInjective(v: bv64, w: bv64)
    requires Decode(v) == Decode(w)
    ensures v == w
  {
    SameBits(v, w);
    SameWord(v, w);
  }

  /** The word operations of the two sides, as the source computes them. */
  lemma FlushWord(w: bv64)
    ensures Decode(w | FLUSH_ON_REENTRY) == WithFlush(Decode(w))
  {}

  lemma HostWord(w: bv64)
    ensures Decode(w | IN_HOST) == Decode(w).(host := true)
  {}

  lemma PostRoot(w: bv64, r: bv64)
    requires r & FEATURE_MASK == 0
    ensures ((w & FEATURE_MASK) | CHANGE_CR3 | r) & CR3_MASK == r
  {}

  lemma PostBits(w: bv64, r: bv64)
    requires r & FEATURE_MASK == 0
    ensures ((w & FEATURE_MASK) | CHANGE_CR3 | r) & IN_HOST == w & IN_HOST
    ensures ((w & FEATURE_MASK) | CHANGE_CR3 | r) & FLUSH_ON_REENTRY == w & FLUSH_ON_REENTRY
    ensures ((w & FEATURE_MASK) | CHANGE_CR3 | r) & CHANGE_CR3 == CHANGE_CR3
  {}

  /** A root whose three low bits are clear does not disturb the feature bits. */
  lemma PostWord(w: bv64, r: bv64)
    requires r & FEATURE_MASK == 0
    ensures Decode((w & FEATURE_MASK) | CHANGE_CR3 | r) == WithRoot(Decode(w), Root(r))
  {
    PostRoot(w, r);
    PostBits(w, r);
  }

  // ---- The entry and exit path ----

  /** Where the vCPU thread stands: in the host; past the test of line 2099; with the
      word taken by the exchange; having counted a flush; having flushed; ready to
      run; in the guest; back from it; with the word read at line 2130. */
  datatype Point =
    | Out | Tested | Taken(w: Word) | Counted(w: Word) | Synced(w: Word) | Ready | Inside | Leaving | Leave(w: Word)

  /** total is full_flush_count without its 32-bit wrap-around; cr3 is the guest's
      CR3; bug says that a BUG_ON has fired. As history, latest is the root most recently
      asked for, and asked, mark and served number the flush requests accepted so far,
      before the last exchange, and before the last flush. */
  datatype Core = Core(word: Word, at: Point, total: int, cr3: Root, bug: bool,
                       latest: Root, asked: int, mark: int, served: int)

  datatype Move = Test | Take | Count | Sync | Skip | Load | Enter | Exit | Read | SetHost | Retry
    | GuestLoad(r: Root) // the guest loads CR3 itself
    | Flush(seen: Word) // a requester's compare-and-swap hits
    | Post(seen: Word, r: Root)

  predicate Can(c: Core, m: Move) {
    match m
    case Test => c.at.Out?
    case Take => c.at.Tested?
    case Count => c.at.Taken? && c.at.w.flush
    case Sync => c.at.Counted?
    case Skip => c.at.Taken? && !c.at.w.flush
    case Load => c.at.Synced?
    case Enter => c.at.Ready?
    case Exit => c.at.Inside?
    case Read => c.at.Leaving?
    case SetHost => c.at.Leave? && c.word == c.at.w
    case Retry => c.at.Leave? && c.word != c.at.w
    case GuestLoad(r) => c.at.Inside?
    case Flush(seen) => c.word == seen
    case Post(seen, r) => c.word == seen && seen.host
  }

  function Do(c: Core, m: Move): Core
    requires Can(c, m)
  {
    match m
    case Test => c.(at := Tested, bug := c.bug || !c.word.host)
    case Take => c.(at := Taken(c.word), word := ZERO, mark := c.asked)
    case Count => c.(at := Counted(c.at.w), total := c.total + 1)
    case Sync => c.(at := Synced(c.at.w), served := c.asked)
    case Skip => c.(at := Synced(c.at.w))
    case Load => c.(at := Ready, cr3 := if c.at.w.change then c.at.w.root else c.cr3)
    case Enter => c.(at := Inside)
    case Exit => c.(at := Leaving)
    case Read => c.(at := Leave(c.word), bug := c.bug || c.word.host)
    case SetHost => c.(at := Out, word := c.word.(host := true))
    case Retry => c.(at := Leaving)
    case GuestLoad(r) => c.(cr3 := r, latest := r)
    case Flush(seen) => c.(word := WithFlush(seen), asked := c.asked + 1)
    case Post(seen, r) => c.(word := WithRoot(seen, r), latest := r)
  }

  predicate Initial(c: Core) {
    && c.word == ZERO.(host := true) && c.at.Out? && !c.bug && c.latest == c.cr3
    && c.asked == 0 && c.mark == 0 && c.served == 0
  }

  /** The word that the next load of CR3 will look at. */
  function Source(c: Core): Word {
    if c.at.Taken? || c.at.Counted? || c.at.Synced? then c.at.w else c.word
  }

  predicate Ok(c: Core) {
    && !c.bug && (c.word.host <==> c.at.Out? || c.at.Tested?) && (c.word.change ==> c.word.host)
    && (c.at.Leave? ==> !c.at.w.host)
    && c.latest == (if Source(c).change then Source(c).root else c.cr3)
    && c.served <= c.asked && c.mark <= c.asked
    && (c.served < c.asked && !c.word.flush ==> (c.at.Taken? || c.at.Counted?) && c.at.w.flush)
    && (if c.at.Out? || c.at.Tested? then true
        else if c.at.Taken? || c.at.Counted? then !c.at.w.flush ==> c.mark <= c.served
        else c.mark <= c.served)
  }

  lemma MoveKeeps(c: Core, m: Move)
    requires Ok(c) && Can(c, m)
    ensures Ok(Do(c, m))
  {}

  // ---- Runs ----

  predicate Valid(c: Core, ms: seq<Move>)
    decreases |ms|
  {
    ms == [] || (Can(c, ms[0]) && Valid(Do(c, ms[0]), ms[1..]))
  }

  function After(c: Core, ms: seq<Move>): Core
    requires Valid(c, ms)
    decreases |ms|
  {
    if ms == [] then c else After(Do(c, ms[0]), ms[1..])
  }

  predicate Request(m: Move) { m.Flush? || m.Post? }

  lemma {:induction false} RunKeeps(c: Core, ms: seq<Move>)
    requires Ok(c) && Valid(c, ms)
    ensures Ok(After(c, ms))
    decreases |ms|
  {
    if ms != [] {
      MoveKeeps(c, ms[0]);
      RunKeeps(Do(c, ms[0]), ms[1..]);
    }
  }

  /** In every interleaving of requesters with the entry and exit path: neither
      BUG_ON fires; the host bit tells exactly whether the vCPU thread is before its exchange;
      whenever the guest runs, it runs on the root asked for last, and every flush
      accepted before the exchange has been done; one accepted later is still in the word. */
  lemma FlagWord(c: Core, ms: seq<Move>)
    requires Initial(c) && Valid(c, ms)
    ensures var d := After(c, ms);
            && !d.bug
            && (d.word.host <==> d.at.Out? || d.at.Tested?)
            && (d.at.Inside? ==> d.cr3 == d.latest && d.mark <= d.served && (d.served < d.asked ==> d.word.flush))
  {
    RunKeeps(c, ms);
  }

  /** Requests change neither the host bit nor anything the target owns. */
  lemma RequestsKeepHost(c: Core, m: Move)
    requires Can(c, m) && Request(m)
    ensures Do(c, m).word.host == c.word.host && Do(c, m).at == c.at && Do(c, m).cr3 == c.cr3
    ensures c.word.flush ==> Do(c, m).word.flush
  {}

  // ---- One entry ----

  predicate Posts(ms: seq<Move>) { exists i :: 0 <= i < |ms| && ms[i].Post? }

  predicate Flushes(ms: seq<Move>) { exists i :: 0 <= i < |ms| && ms[i].Flush? }

  /** The last root posted in ms, if any, else r. */
  function LastPosted(ms: seq<Move>, r: Root): Root
    decreases |ms|
  {
    if ms == [] then r else LastPosted(ms[1..], if ms[0].Post? then ms[0].r else r)
  }

  lemma FlushesCons(m: Move, ms: seq<Move>)
    ensures Flushes([m] + ms) <==> m.Flush? || Flushes(ms)
    ensures Posts([m] + ms) <==> m.Post? || Posts(ms)
  {
    var ns := [m] + ms;
    if m.Flush? { assert ns[0].Flush?; }
    if m.Post? { assert ns[0].Post?; }
    if i :| 0 <= i < |ms| && ms[i].Flush? { assert ns[i + 1].Flush?; }
    if i :| 0 <= i < |ms| && ms[i].Post? { assert ns[i + 1].Post?; }
    if i :| 0 <= i < |ns| && ns[i].Flush? { assert i > 0 ==> ms[i - 1].Flush?; }
    if i :| 0 <= i < |ns| && ns[i].Post? { assert i > 0 ==> ms[i - 1].Post?; }
  }

  /** The moves before the exchange of line 2103, and those after it. */
  function Before(ms: seq<Move>): seq<Move>
    decreases |ms|
  {
    if ms == [] || ms[0].Take? then [] else [ms[0]] + Before(ms[1..])
  }

  function Past(ms: seq<Move>): seq<Move>
    decreases |ms|
  {
    if ms == [] then [] else if ms[0].Take? then ms[1..] else Past(ms[1..])
  }

  /** The run neither leaves the guest nor loads a root in it: one entry, with requests at any point of it. */
  predicate OneEntry(ms: seq<Move>) { forall i :: 0 <= i < |ms| ==> !ms[i].Exit? && !ms[i].GuestLoad? }

  /** Whether translations from before the run survive it, if b says that there were some: a flush drops them, a
      change of CR3 by the host does not. */
  function Survive(b: bool, ms: seq<Move>): bool
    decreases |ms|
  {
    if ms == [] then b else Survive(b && !ms[0].Sync?, ms[1..])
  }

  /** What the rest of an entry does, after the exchange; w is the word taken. */
  predicate Completes(c: Core, d: Core, w: Word, ms: seq<Move>, b: bool) {
    && d.total == c.total + (if c.at.Taken? && w.flush then 1 else 0)
    && d.cr3 == (if !c.at.Ready? && !c.at.Inside? && w.change then w.root else c.cr3)
    && (d.word.flush <==> c.word.flush || Flushes(ms)) && !d.word.change
    && (Survive(b, ms) <==> b && !((c.at.Taken? || c.at.Counted?) && w.flush))
  }

  lemma {:induction false} Finishes(c: Core, ms: seq<Move>, w: Word, b: bool)
    requires Valid(c, ms) && OneEntry(ms) && After(c, ms).at.Inside? && !c.word.host && !c.word.change
    requires c.at == Taken(w) || (c.at == Counted(w) && w.flush) || c.at == Synced(w) || c.at.Ready? || c.at.Inside?
    ensures Completes(c, After(c, ms), w, ms, b)
    decreases |ms|
  {
    if ms != [] {
      var m := ms[0];
      assert !m.Exit? && !m.GuestLoad?;
      forall i | 0 <= i < |ms[1..]| ensures !ms[1..][i].Exit?
          && !ms[1..][i].GuestLoad? { assert ms[1..][i] == ms[i + 1]; }
      Finishes(Do(c, m), ms[1..], w, b && !m.Sync?);
      assert ms == [m] + ms[1..];
      FlushesCons(m, ms[1..]);
    }
  }

  /** What a run from the host into the guest does, in terms of its requests before and after the exchange. */
  predicate Consumes(c: Core, d: Core, ms: seq<Move>, b: bool) {
    && d.total == c.total + (if c.word.flush || Flushes(Before(ms)) then 1 else 0)
    && d.cr3 == (if c.word.change || Posts(Before(ms)) then LastPosted(Before(ms), c.word.root) else c.cr3)
    && (d.word.flush <==> Flushes(Past(ms))) && !d.word.change
    && (Survive(b, ms) <==> b && !(c.word.flush || Flushes(Before(ms))))
  }

  lemma {:induction false} Gathers(c: Core, ms: seq<Move>, b: bool)
    requires (c.at.Out? || c.at.Tested?) && Valid(c, ms) && OneEntry(ms) && After(c, ms).at.Inside?
    ensures Consumes(c, After(c, ms), ms, b)
    decreases |ms|
  {
    var m := ms[0];
    assert !m.Exit? && !m.GuestLoad?;
    forall i | 0 <= i < |ms[1..]| ensures !ms[1..][i].Exit?
        && !ms[1..][i].GuestLoad? { assert ms[1..][i] == ms[i + 1]; }
    if m.Take? {
      Finishes(Do(c, m), ms[1..], c.word, b);
    } else {
      Gathers(Do(c, m), ms[1..], b);
      FlushesCons(m, Before(ms[1..]));
      assert Before(ms)[1..] == Before(ms[1..]);
    }
  }

  /** In every interleaving of requests with one entry: it flushes exactly if a flush was asked for before its
      exchange, and loads the root posted last before it; a flush asked for later stays in the word for the next
      entry. */
  lemma EntryConsumes(c: Core, ms: seq<Move>)
    requires c.at.Out? && Valid(c, ms) && OneEntry(ms) && After(c, ms).at.Inside?
    ensures var d := After(c, ms);
            && d.total == c.total + (if c.word.flush || Flushes(Before(ms)) then 1 else 0)
            && d.cr3 == (if c.word.change || Posts(Before(ms)) then LastPosted(Before(ms), c.word.root) else c.cr3)
            && (d.word.flush <==> Flushes(Past(ms)))
  {
    Gathers(c, ms, true);
  }

  /** Translations from before the entry survive it exactly if no flush was asked for before its exchange, whether
      or not it loads another root. */
  lemma SurviveExact(c: Core, ms: seq<Move>)
    requires c.at.Out? && Valid(c, ms) && OneEntry(ms) && After(c, ms).at.Inside?
    ensures Survive(true, ms) <==> !c.word.flush && !Flushes(Before(ms))
  {
    Gathers(c, ms, true);
  }
}
