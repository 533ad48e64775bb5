/** The shape every importer loop shares: walk the records of a payload in order,
    keep the ones whose references resolve, append a diagnostic for each one that is
    dropped, and stop at the first record whose construction raises. */
module Ingest {
  import opened Wrappers
  import opened Models
  import opened Diagnostics

  /** What one record, or a prefix of the records, contributes. */
  datatype Sifted<X> = Sifted(kept: seq<X>, diagnostics: seq<ImportDiagnostic>)

  /** `item[key]` on a parsed payload row: an absent key raises `KeyError`. */
  function Key(v: Option<string>, key: string): (r: Result<string, Error>)
    ensures r.Success? <==> v.Some?
    ensures r.Success? ==> r.value == v.value
    ensures r.Failure? ==> r.error == KeyMissing(key)
  {
    if v.Some? then Success(v.value) else Failure(KeyMissing(key))
  }

  /** `value in known` for a value that may be `None`, which no set of ids holds. */
  predicate Known(value: Option<string>, known: set<string>) {
    value.Some? && value.value in known
  }

  /** The `missing_reference` diagnostic every importer emits. */
  function MissingReference(message: string, level: DiagnosticLevel, context: map<string, Option<string>>): ImportDiagnostic {
    ImportDiagnostic("missing_reference", message, level, context)
  }

  /** The records of `items`, one step each, in order; the first failing step ends
      the walk with its error. */
  function Sift<T, X>(items: seq<T>, step: T -> Result<Sifted<X>, Error>): Result<Sifted<X>, Error> {
    if items == [] then Success(Sifted([], []))
    else
      var before :- Sift(items[..|items| - 1], step);
      var last :- step(items[|items| - 1]);
      Success(Sifted(before.kept + last.kept, before.diagnostics + last.diagnostics))
  }

  /** One more successful step extends what the prefix kept and reported. */
  lemma SiftNext<T, X>(items: seq<T>, step: T -> Result<Sifted<X>, Error>, i: nat, acc: Sifted<X>)
    requires i < |items| && Sift(items[..i], step) == Success(acc) && step(items[i]).Success?
    ensures Sift(items[..i + 1], step)
         == Success(Sifted(acc.kept + step(items[i]).value.kept, acc.diagnostics + step(items[i]).value.diagnostics))
  {
    assert items[..i + 1][..i] == items[..i];
  }

  /** A failing step at `i`, after a successful prefix, is the failure of the whole walk. */
  lemma SiftStops<T, X>(items: seq<T>, step: T -> Result<Sifted<X>, Error>, i: nat)
    requires i < |items| && Sift(items[..i], step).Success? && step(items[i]).Failure?
    ensures Sift(items, step) == Failure(step(items[i]).error)
  {
    assert items[..i + 1][..i] == items[..i];
    SiftFailedPrefix(items, step, i + 1);
  }

  lemma {:induction false} SiftFailedPrefix<T, X>(items: seq<T>, step: T -> Result<Sifted<X>, Error>, j: nat)
    requires j <= |items| && Sift(items[..j], step).Failure?
    ensures Sift(items, step) == Sift(items[..j], step)
  {
    if j < |items| {
      assert items[..|items| - 1][..j] == items[..j];
      SiftFailedPrefix(items[..|items| - 1], step, j);
    } else {
      assert items[..j] == items;
    }
  }

  /** The whole walk succeeds exactly when every step does. */
  lemma {:induction false} SiftSucceeds<T, X>(items: seq<T>, step: T -> Result<Sifted<X>, Error>)
    ensures Sift(items, step).Success? <==> forall i :: 0 <= i < |items| ==> step(items[i]).Success?
  {
    if items != [] {
      var init := items[..|items| - 1];
      SiftSucceeds(init, step);
      assert forall i :: 0 <= i < |init| ==> init[i] == items[i];
    }
  }

  /** When every step keeps a record or reports a diagnostic, but never both and never
      neither, kept records and diagnostics together account for every input record. */
  lemma {:induction false} SiftAccounts<T, X>(items: seq<T>, step: T -> Result<Sifted<X>, Error>)
    requires Sift(items, step).Success?
    requires forall x :: x in items && step(x).Success? ==> |step(x).value.kept| + |step(x).value.diagnostics| == 1
    ensures |Sift(items, step).value.kept| + |Sift(items, step).value.diagnostics| == |items|
  {
    if items != [] {
      var init := items[..|items| - 1];
      assert forall x :: x in init ==> x in items;
      SiftAccounts(init, step);
      assert items[|items| - 1] in items;
    }
  }

  /** A property every step's kept records have is a property of everything kept. */
  lemma {:induction false} SiftKeeps<T, X>(items: seq<T>, step: T -> Result<Sifted<X>, Error>, keeps: X -> bool)
    requires Sift(items, step).Success?
    requires forall x :: x in items && step(x).Success? ==> forall k <- step(x).value.kept :: keeps(k)
    ensures forall k <- Sift(items, step).value.kept :: keeps(k)
  {
    if items != [] {
      var init := items[..|items| - 1];
      assert forall x :: x in init ==> x in items;
      SiftKeeps(init, step, keeps);
      assert items[|items| - 1] in items;
    }
  }

  /** A property every step's diagnostics have is a property of every diagnostic. */
  lemma {:induction false} SiftReports<T, X>(items: seq<T>, step: T -> Result<Sifted<X>, Error>, reports: ImportDiagnostic -> bool)
    requires Sift(items, step).Success?
    requires forall x :: x in items && step(x).Success? ==> forall d <- step(x).value.diagnostics :: reports(d)
    ensures forall d <- Sift(items, step).value.diagnostics :: reports(d)
  {
    if items != [] {
      var init := items[..|items| - 1];
      assert forall x :: x in init ==> x in items;
      SiftReports(init, step, reports);
      assert items[|items| - 1] in items;
    }
  }

  /** The kept records are the steps' kept records, concatenated in input order. */
  lemma {:induction false} SiftInOrder<T, X>(items: seq<T>, step: T -> Result<Sifted<X>, Error>)
    requires Sift(items, step).Success?
    ensures (forall i :: 0 <= i < |items| ==> step(items[i]).Success?)
         && Sift(items, step).value.kept == KeptOf(items, step)
  {
    SiftSucceeds(items, step);
    if items != [] {
      var init := items[..|items| - 1];
      SiftSucceeds(init, step);
      assert forall i :: 0 <= i < |init| ==> init[i] == items[i];
      SiftInOrder(init, step);
      KeptOfPrefix(items, step);
    }
  }

  /** `[k for x in items for k in step(x).kept]`. */
  function KeptOf<T, X>(items: seq<T>, step: T -> Result<Sifted<X>, Error>): seq<X>
    requires forall i :: 0 <= i < |items| ==> step(items[i]).Success?
  {
    if items == [] then [] else step(items[0]).value.kept + KeptOf(items[1..], step)
  }

  lemma {:induction false} KeptOfPrefix<T, X>(items: seq<T>, step: T -> Result<Sifted<X>, Error>)
    requires items != [] && forall i :: 0 <= i < |items| ==> step(items[i]).Success?
    ensures KeptOf(items, step) == KeptOf(items[..|items| - 1], step) + step(items[|items| - 1]).value.kept
  {
    if |items| > 1 {
      var tail := items[1..];
      KeptOfPrefix(tail, step);
      assert tail[..|tail| - 1] == items[..|items| - 1][1..];
    }
  }

  /** `[x for x in items if keep(x)]`. */
  function Passing<T>(items: seq<T>, keep: T -> bool): seq<T> {
    if items == [] then []
    else Passing(items[..|items| - 1], keep) + (if keep(items[|items| - 1]) then [items[|items| - 1]] else [])
  }

  /** A filter every item passes keeps them all. */
  lemma {:induction false} PassingAll<T>(items: seq<T>, keep: T -> bool)
    requires forall x <- items :: keep(x)
    ensures Passing(items, keep) == items
  {
    if items != [] {
      var init, last := items[..|items| - 1], items[|items| - 1];
      forall x | x in init ensures keep(x) {
        var i :| 0 <= i < |init| && init[i] == x;
        assert items[i] == x;
      }
      PassingAll(init, keep);
      assert keep(last) by { assert last in items; }
      assert items == init + [last];
    }
  }

  /** When each step keeps exactly the records that pass `keep`, one each and carrying
      the record's key, the kept records are the passing records, in input order. */
  lemma {:induction false} SiftFilters<T, X, K>(items: seq<T>, step: T -> Result<Sifted<X>, Error>, keep: T -> bool,
                                                key: T -> K, keyOf: X -> K)
    requires Sift(items, step).Success?
    requires forall x :: x in items && step(x).Success? ==>
      |step(x).value.kept| == (if keep(x) then 1 else 0) && (keep(x) ==> keyOf(step(x).value.kept[0]) == key(x))
    ensures |Sift(items, step).value.kept| == |Passing(items, keep)|
    ensures forall i :: 0 <= i < |Passing(items, keep)| ==> keyOf(Sift(items, step).value.kept[i]) == key(Passing(items, keep)[i])
  {
    if items != [] {
      var init, last := items[..|items| - 1], items[|items| - 1];
      assert forall x :: x in init ==> x in items;
      SiftFilters(init, step, keep, key, keyOf);
      assert last in items;
    }
  }

  /** One record's contribution when a loop keeps the records passing `keep` and
      reports each other record once: the record kept carries the record's key and
      has `keeps`, the diagnostic has `reports`. */
  ghost predicate KeepsOrReports<T, X, K>(x: T, r: Sifted<X>, keep: T -> bool, key: T -> K, keyOf: X -> K,
                                    keeps: X -> bool, reports: ImportDiagnostic -> bool) {
    |r.kept| == (if keep(x) then 1 else 0) && |r.kept| + |r.diagnostics| == 1
    && (keep(x) ==> keyOf(r.kept[0]) == key(x) && keeps(r.kept[0]))
    && forall d <- r.diagnostics :: reports(d)
  }

  /** A loop whose every step keeps or reports its record accounts for every record,
      keeps the passing ones in input order, and reports the others. */
  lemma SiftKeepsOrReports<T, X, K>(items: seq<T>, step: T -> Result<Sifted<X>, Error>, keep: T -> bool, key: T -> K,
                                    keyOf: X -> K, keeps: X -> bool, reports: ImportDiagnostic -> bool)
    requires Sift(items, step).Success?
    requires forall x :: x in items && step(x).Success? ==> KeepsOrReports(x, step(x).value, keep, key, keyOf, keeps, reports)
    ensures var r := Sift(items, step).value;
      |r.kept| + |r.diagnostics| == |items|
      && |r.kept| == |Passing(items, keep)|
      && (forall i :: 0 <= i < |Passing(items, keep)| ==> keyOf(r.kept[i]) == key(Passing(items, keep)[i]))
      && (forall k <- r.kept :: keeps(k))
      && forall d <- r.diagnostics :: reports(d)
  {
    SiftAccounts(items, step);
    SiftFilters(items, step, keep, key, keyOf);
    SiftKeeps(items, step, keeps);
    SiftReports(items, step, reports);
  }

  /** The loop every section of an importer runs: each record's contribution is
      appended, its kept records to the result and its diagnostics to
      `diagnostics`; the first record whose construction raises ends the loop. */
  method SiftInto<T, X>(items: seq<T>, step: T -> Result<Sifted<X>, Error>, diagnostics: ImportDiagnostics)
    returns (r: Result<seq<X>, Error>)
    modifies diagnostics
    ensures r.Success? <==> Sift(items, step).Success?
    ensures r.Failure? ==> Sift(items, step) == Failure(r.error)
    ensures r.Success? ==> (r.value == Sift(items, step).value.kept
      && diagnostics.entries == old(diagnostics.entries) + Sift(items, step).value.diagnostics)
  {
    var kept: seq<X> := [];
    assert items[..0] == [] && diagnostics.entries[|old(diagnostics.entries)|..] == [];
    for i := 0 to |items|
      invariant |old(diagnostics.entries)| <= |diagnostics.entries|
      invariant diagnostics.entries[..|old(diagnostics.entries)|] == old(diagnostics.entries)
      invariant Sift(items[..i], step) == Success(Sifted(kept, diagnostics.entries[|old(diagnostics.entries)|..]))
    {
      ghost var acc := Sifted(kept, diagnostics.entries[|old(diagnostics.entries)|..]);
      var contribution := step(items[i]);
      if contribution.Failure? {
        SiftStops(items, step, i);
        return Failure(contribution.error);
      }
      SiftNext(items, step, i, acc);
      var reported := contribution.value.diagnostics;
      ghost var mid := diagnostics.entries;
      for k := 0 to |reported|
        invariant diagnostics.entries == mid + reported[..k]
      {
        var d := reported[k];
        diagnostics.Add(d.code, d.message, d.context, d.level);
        assert reported[..k + 1] == reported[..k] + [d];
      }
      assert reported[..|reported|] == reported;
      kept := kept + contribution.value.kept;
      assert diagnostics.entries[|old(diagnostics.entries)|..] == acc.diagnostics + reported;
    }
    assert items[..|items|] == items;
    assert diagnostics.entries == old(diagnostics.entries) + diagnostics.entries[|old(diagnostics.entries)|..];
    return Success(kept);
  }

  // ---------------------------------------------------------------------------
  // Lists of references inside one record
  // ---------------------------------------------------------------------------

  /** The ids that `known` holds, in their original order. */
  function KnownOnly(ids: seq<string>, known: set<string>): seq<string> {
    if ids == [] then []
    else
      var last := ids[|ids| - 1];
      KnownOnly(ids[..|ids| - 1], known) + (if last in known then [last] else [])
  }

  /** One diagnostic per id that `known` lacks, in their original order. */
  function ReportUnknown(ids: seq<string>, known: set<string>, report: string -> ImportDiagnostic): seq<ImportDiagnostic> {
    if ids == [] then []
    else
      var last := ids[|ids| - 1];
      ReportUnknown(ids[..|ids| - 1], known, report) + (if last in known then [] else [report(last)])
  }

  /** Every id is kept or reported, never both: the kept ones are exactly the known
      ones and every unknown one is reported. */
  lemma {:induction false} KnownOrReported(ids: seq<string>, known: set<string>, report: string -> ImportDiagnostic)
    ensures |KnownOnly(ids, known)| + |ReportUnknown(ids, known, report)| == |ids|
    ensures forall n :: n in KnownOnly(ids, known) <==> n in ids && n in known
    ensures forall n :: n in ids && n !in known ==> report(n) in ReportUnknown(ids, known, report)
    ensures forall d <- ReportUnknown(ids, known, report) :: exists n :: n in ids && n !in known && d == report(n)
  {
    if ids != [] {
      var init, last := ids[..|ids| - 1], ids[|ids| - 1];
      KnownOrReported(init, known, report);
      assert ids == init + [last];
    }
  }

  /** A property every possible report has is a property of every diagnostic reported. */
  lemma {:induction false} ReportUnknownAll(ids: seq<string>, known: set<string>, report: string -> ImportDiagnostic,
                                            reports: ImportDiagnostic -> bool)
    requires forall n <- ids :: reports(report(n))
    ensures forall d <- ReportUnknown(ids, known, report) :: reports(d)
  {
    if ids != [] {
      var init := ids[..|ids| - 1];
      assert forall n :: n in init ==> n in ids;
      ReportUnknownAll(init, known, report, reports);
      assert ids[|ids| - 1] in ids;
    }
  }

  /** One more id extends what is kept or what is reported. */
  lemma KnownNext(ids: seq<string>, known: set<string>, report: string -> ImportDiagnostic, j: nat)
    requires j < |ids|
    ensures KnownOnly(ids[..j + 1], known) == KnownOnly(ids[..j], known) + (if ids[j] in known then [ids[j]] else [])
    ensures ReportUnknown(ids[..j + 1], known, report)
         == ReportUnknown(ids[..j], known, report) + (if ids[j] in known then [] else [report(ids[j])])
  {
    assert ids[..j + 1][..j] == ids[..j];
  }

  /** The loop over a cluster's `node_ids`: known ids are kept in order, each unknown
      one is reported. */
  method FilterKnown(ids: seq<string>, known: set<string>, report: string -> ImportDiagnostic, diagnostics: ImportDiagnostics)
    returns (kept: seq<string>)
    modifies diagnostics
    ensures kept == KnownOnly(ids, known)
    ensures diagnostics.entries == old(diagnostics.entries) + ReportUnknown(ids, known, report)
  {
    kept := [];
    for j := 0 to |ids|
      invariant kept == KnownOnly(ids[..j], known)
      invariant diagnostics.entries == old(diagnostics.entries) + ReportUnknown(ids[..j], known, report)
    {
      var id := ids[j];
      KnownNext(ids, known, report, j);
      if id !in known {
        var d := report(id);
        diagnostics.Add(d.code, d.message, d.context, d.level);
        continue;
      }
      kept := kept + [id];
    }
    assert ids[..|ids|] == ids;
  }

  // ---------------------------------------------------------------------------
  // Loops that thread a state through the records
  // ---------------------------------------------------------------------------

  /** Runs `step` over `items` in order from `init`; the first failing step ends the
      walk with its error. */
  function Fold<S, T>(init: S, items: seq<T>, step: (S, T) -> Result<S, Error>): Result<S, Error> {
    if items == [] then Success(init)
    else
      var before :- Fold(init, items[..|items| - 1], step);
      step(before, items[|items| - 1])
  }

  /** One more step after a successful prefix. */
  lemma FoldNext<S, T>(init: S, items: seq<T>, step: (S, T) -> Result<S, Error>, i: nat, acc: S)
    requires i < |items| && Fold(init, items[..i], step) == Success(acc)
    ensures Fold(init, items[..i + 1], step) == step(acc, items[i])
  {
    assert items[..i + 1][..i] == items[..i];
  }

  /** A failing step after a successful prefix is the failure of the whole walk. */
  lemma FoldStops<S, T>(init: S, items: seq<T>, step: (S, T) -> Result<S, Error>, i: nat, acc: S)
    requires i < |items| && Fold(init, items[..i], step) == Success(acc) && step(acc, items[i]).Failure?
    ensures Fold(init, items, step) == Failure(step(acc, items[i]).error)
  {
    FoldNext(init, items, step, i, acc);
    FoldFailedPrefix(init, items, step, i + 1);
  }

  lemma {:induction false} FoldFailedPrefix<S, T>(init: S, items: seq<T>, step: (S, T) -> Result<S, Error>, j: nat)
    requires j <= |items| && Fold(init, items[..j], step).Failure?
    ensures Fold(init, items, step) == Fold(init, items[..j], step)
  {
    if j < |items| {
      assert items[..|items| - 1][..j] == items[..j];
      FoldFailedPrefix(init, items[..|items| - 1], step, j);
    } else {
      assert items[..j] == items;
    }
  }

  /** A property of the state that every successful step keeps holds after the walk. */
  lemma {:induction false} FoldKeeps<S, T>(init: S, items: seq<T>, step: (S, T) -> Result<S, Error>, inv: S -> bool)
    requires inv(init)
    requires forall s, x :: inv(s) && step(s, x).Success? ==> inv(step(s, x).value)
    ensures Fold(init, items, step).Success? ==> inv(Fold(init, items, step).value)
  {
    if items != [] {
      FoldKeeps(init, items[..|items| - 1], step, inv);
    }
  }
}
