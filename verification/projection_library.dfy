/**
  The Projection library as the runtime sees it: an opaque book with a status,
  a deterministic `apply` and a deterministic `install`. Books, updates and
  snapshots are named by numbers; no rule about update sequences is invented.

  Source: the uses of `projection_` in src/g3/market_runtime.cpp.
 */
module ProjectionLibrary {
  import opened MarketTypes

  type Book = nat

  datatype Disposition = Applied | IgnoredStale | IgnoredDuplicate | GapDetected | RejectedWrongState

  // A call adapts its input and then runs on the book: it may report an
  // adapter error, throw, or finish.
  datatype ApplyResult = ApplyAdapterError | ApplyThrew | Disposed(disposition: Disposition)
  datatype InstallResult = InstallAdapterError | InstallThrew | InstallRejected | Installed

  datatype Library = Library(
    initial: Book,
    status: Book -> ProjectionStatus,
    apply: (Book, nat) -> (Book, ApplyResult),
    install: (Book, nat) -> (Book, InstallResult))

  /**
    What is assumed of the library: a reset book awaits its baseline, an
    installation succeeds only then, and a book starts to need a
    resynchronisation exactly when a gap is detected.
   */
  ghost predicate LibraryOk(L: Library) {
    && L.status(L.initial) == AwaitingBaseline
    && (forall b: Book, s: nat :: L.install(b, s).1 == Installed ==> L.status(b) == AwaitingBaseline)
    && (forall b: Book, s: nat ::
          L.status(L.install(b, s).0) == ResyncRequired ==> L.status(b) == ResyncRequired)
    && (forall b: Book, u: nat :: L.apply(b, u).1 == Disposed(GapDetected) ==>
          L.status(L.apply(b, u).0) == ResyncRequired)
    && (forall b: Book, u: nat :: L.status(b) != ResyncRequired && L.status(L.apply(b, u).0) == ResyncRequired ==>
          L.apply(b, u).1 == Disposed(GapDetected))
  }

  /** A book that has its baseline keeps it until it is reset. */
  ghost predicate KeepsBaseline(L: Library) {
    && (forall b: Book, s: nat :: L.install(b, s).1 == Installed ==> L.status(L.install(b, s).0) != AwaitingBaseline)
    && (forall b: Book, u: nat :: L.status(b) != AwaitingBaseline ==> L.status(L.apply(b, u).0) != AwaitingBaseline)
  }

  /** An update that is not applied leaves the book alone, unless it fails or detects a gap. */
  ghost predicate IgnoringIsNeutral(L: Library) {
    forall b: Book, u: nat ::
      L.apply(b, u).1.Disposed? && L.apply(b, u).1.disposition !in {Applied, GapDetected} ==> L.apply(b, u).0 == b
  }

  // Book 0 awaits its baseline, book 1 needs a resynchronisation, the others are synchronized.
  function ToyLibrary(): Library {
    Library(
      0,
      b => if b == 0 then AwaitingBaseline else if b == 1 then ResyncRequired else Synchronized,
      (b, u) =>
        if b <= 1 then (b, Disposed(RejectedWrongState))
        else if u == 0 then (1, Disposed(GapDetected))
        else (b + u, Disposed(Applied)),
      (b, s) => if b == 0 then (s + 2, Installed) else (b, InstallRejected))
  }

  /** The assumptions hold together, of a library in which updates are applied and gaps detected. */
  lemma AssumptionsAreConsistent()
    ensures LibraryOk(ToyLibrary()) && KeepsBaseline(ToyLibrary()) && IgnoringIsNeutral(ToyLibrary())
    ensures ToyLibrary().apply(2, 5) == (7, Disposed(Applied))
  {
    assert ToyLibrary().status(0) == AwaitingBaseline;
  }
}
