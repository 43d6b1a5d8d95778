/**
  The hash-chained append-only ledger (ledger/local.py).  The hash is any function; collisions are the caller's
  assumption.
 */
module HashChain {
  import opened Wrappers
  import opened Folds
  import opened Domain

  const GENESIS := "GENESIS"

  /** The canonical document that is hashed: everything but the event identifier. */
  datatype Canonical = Canonical(sequence: int, eventType: string, payload: string, createdAt: string, prevHash: string)

  datatype LedgerEvent = LedgerEvent(
    eventId: string,
    sequence: int,
    eventType: string,
    payload: string,
    prevHash: string,
    eventHash: string,
    createdAt: string)
  {
    function Fields(): Canonical {
      Canonical(sequence, eventType, payload, createdAt, prevHash)
    }
  }

  type Hash = Canonical -> string

  ghost predicate CollisionFree(hash: Hash) {
    && (forall a, b :: hash(a) == hash(b) ==> a == b)
    && (forall a :: hash(a) != GENESIS)
  }

  /** The hash the next event must point back to. */
  function Head(events: seq<LedgerEvent>): string {
    if events == [] then GENESIS else events[|events| - 1].eventHash
  }

  /** The three checks of the loader, for one event. */
  predicate Fits(hash: Hash, events: seq<LedgerEvent>, e: LedgerEvent) {
    e.sequence == |events| + 1 && e.prevHash == Head(events) && e.eventHash == hash(e.Fields())
  }

  predicate Accepted(hash: Hash, events: seq<LedgerEvent>) {
    events == [] ||
    (Accepted(hash, events[..|events| - 1]) && Fits(hash, events[..|events| - 1], events[|events| - 1]))
  }

  /**
    The line at `i` is numbered from one, points back to the line before it, and carries the hash of all but its
    name.
   */
  predicate Linked(hash: Hash, events: seq<LedgerEvent>, i: int)
    requires 0 <= i < |events|
  {
    var e := events[i];
    && e.sequence == i + 1
    && e.prevHash == (if i == 0 then "GENESIS" else events[i - 1].eventHash)
    && e.eventHash == hash(Canonical(e.sequence, e.eventType, e.payload, e.createdAt, e.prevHash))
  }

  /** A file is accepted if and only if each of its lines is. */
  lemma {:induction false} AcceptedMeans(hash: Hash, events: seq<LedgerEvent>)
    ensures Accepted(hash, events) <==> forall i :: 0 <= i < |events| ==> Linked(hash, events, i)
  {
    if events != [] {
      var n := |events| - 1;
      AcceptedMeans(hash, events[..n]);
      forall i | 0 <= i < n
        ensures Linked(hash, events, i) <==> Linked(hash, events[..n], i)
      {
      }
      assert Linked(hash, events, n) <==> Fits(hash, events[..n], events[n]);
    }
  }

  lemma RejectionPersists(hash: Hash, events: seq<LedgerEvent>, n: nat)
    requires n <= |events| && !Accepted(hash, events[..n])
    ensures !Accepted(hash, events)
  {
    PrefixDecides((es: seq<LedgerEvent>) => Accepted(hash, es), (accepted: bool) => !accepted, events, n);
  }

  class LocalAppendOnlyLedger {
    const hash: Hash
    var events: seq<LedgerEvent>
    /** The file, one event a line. */
    var file: seq<LedgerEvent>

    ghost predicate Valid()
      reads this
    {
      events == file && Accepted(hash, events)
    }

    /** Opening an existing file reads it back exactly, if and only if its chain is intact. */
    constructor (hash: Hash, file: seq<LedgerEvent>)
      ensures this.hash == hash && this.file == file
      ensures Accepted(hash, file) ==> Valid() && events == file
    {
      this.hash, this.file, this.events := hash, file, [];
      new;
      var loaded := Load();
    }

    /** The loop over the lines, with the running sequence number and hash; an error stops it where it is. */
    method Load() returns (res: Result<(), Error>)
      requires events == []
      modifies this`events
      ensures res.Ok? <==> Accepted(hash, file)
      ensures res.Ok? ==> events == file
      ensures events <= file && Accepted(hash, events)
    {
      var expectedSequence := 1;
      var prevHash := GENESIS;
      for i := 0 to |file|
        invariant events == file[..i] && Accepted(hash, events)
        invariant expectedSequence == i + 1 && prevHash == Head(events)
      {
        var event := file[i];
        assert file[..i + 1] == events + [event];
        assert file[..i + 1][..i] == events;
        if event.sequence != expectedSequence || event.prevHash != prevHash || event.eventHash != hash(event.Fields()) {
          RejectionPersists(hash, file, i + 1);
          return Err(ChainBroken);
        }
        events := events + [event];
        expectedSequence := expectedSequence + 1;
        prevHash := event.eventHash;
      }
      assert file[..|file|] == file;
      return Ok(());
    }

    method Append(eventId: string, eventType: string, payload: string, createdAt: string) returns (e: LedgerEvent)
      requires Valid()
      modifies this
      ensures Valid() && events == old(events) + [e]
      ensures e.eventType == eventType && e.payload == payload && e.createdAt == createdAt && e.eventId == eventId
    {
      var sequence := |events| + 1;
      var prevHash := Head(events);
      e := LedgerEvent(eventId, sequence, eventType, payload, prevHash,
                       hash(Canonical(sequence, eventType, payload, createdAt, prevHash)), createdAt);
      assert (events + [e])[..|events|] == events;
      events := events + [e];
      file := file + [e];
    }
  }

  /** Two intact ledgers with the same last hash have the same history, in every hashed field. */
  lemma {:induction false} SameHeadSameHistory(hash: Hash, a: seq<LedgerEvent>, b: seq<LedgerEvent>)
    requires CollisionFree(hash) && Accepted(hash, a) && Accepted(hash, b) && Head(a) == Head(b)
    ensures |a| == |b|
    ensures forall i :: 0 <= i < |a| ==> a[i].Fields() == b[i].Fields() && a[i].eventHash == b[i].eventHash
  {
    if a != [] && b != [] {
      var m, n := |a| - 1, |b| - 1;
      assert hash(a[m].Fields()) == hash(b[n].Fields());
      assert a[m].Fields() == b[n].Fields();
      assert Head(a[..m]) == a[m].prevHash == b[n].prevHash == Head(b[..n]);
      SameHeadSameHistory(hash, a[..m], b[..n]);
    }
  }

  /** Changing any hashed field of an intact ledger is noticed: the chain breaks, or its head changes. */
  lemma TamperingIsNoticed(hash: Hash, a: seq<LedgerEvent>, i: nat, e: LedgerEvent)
    requires CollisionFree(hash) && Accepted(hash, a) && i < |a| && e.Fields() != a[i].Fields()
    ensures Accepted(hash, a[i := e]) ==> Head(a[i := e]) != Head(a)
  {
    var b := a[i := e];
    assert b[i] == e;
    if Accepted(hash, b) && Head(b) == Head(a) {
      SameHeadSameHistory(hash, b, a);
    }
  }

  /** The exception: event identifiers are outside the hash, so any of them can be replaced unnoticed. */
  lemma {:induction false} IdentifiersAreNotProtected(hash: Hash, a: seq<LedgerEvent>, i: nat, eventId: string)
    requires Accepted(hash, a) && i < |a|
    ensures Accepted(hash, a[i := a[i].(eventId := eventId)])
    ensures Head(a[i := a[i].(eventId := eventId)]) == Head(a)
  {
    var b := a[i := a[i].(eventId := eventId)];
    var n := |a| - 1;
    if i < n {
      IdentifiersAreNotProtected(hash, a[..n], i, eventId);
      assert b[..n] == a[..n][i := a[i].(eventId := eventId)];
    } else {
      assert b[..n] == a[..n];
    }
  }

  /**
    Exactly what the chain protects: a replaced event goes unnoticed if and only if it differs in its identifier
    alone.
   */
  lemma OnlyIdentifiersCanChange(hash: Hash, a: seq<LedgerEvent>, i: nat, e: LedgerEvent)
    requires CollisionFree(hash) && Accepted(hash, a) && i < |a|
    ensures Accepted(hash, a[i := e]) && Head(a[i := e]) == Head(a) <==> e == a[i].(eventId := e.eventId)
  {
    var b := a[i := e];
    assert b[i] == e;
    if Accepted(hash, b) && Head(b) == Head(a) {
      SameHeadSameHistory(hash, b, a);
    }
    if e == a[i].(eventId := e.eventId) {
      IdentifiersAreNotProtected(hash, a, i, e.eventId);
    }
  }
}
