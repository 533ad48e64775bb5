/** The diagnostics an importer collects while it drops records whose references
    do not resolve. */
module Diagnostics {
  import opened Wrappers

  datatype DiagnosticLevel = Info | Warning | Error

  function LevelValue(level: DiagnosticLevel): string {
    match level
    case Info => "INFO"
    case Warning => "WARNING"
    case Error => "ERROR"
  }

  /** The level `add` uses when its caller names none. */
  const DefaultLevel: DiagnosticLevel := Warning

  /** One frozen diagnostic; `context` holds the keyword arguments of `add`, where
      `None` stands for a Python `None` value. */
  datatype ImportDiagnostic = ImportDiagnostic(
    code: string,
    message: string,
    level: DiagnosticLevel,
    context: map<string, Option<string>>)

  /** `any(entry.level is ERROR for entry in entries)`, scanning from the front. */
  function AnyError(entries: seq<ImportDiagnostic>): (b: bool)
    ensures b <==> exists i :: 0 <= i < |entries| && entries[i].level == Error
  {
    if entries == [] then false
    else entries[0].level == Error || (assert forall i :: 0 < i < |entries| ==> entries[i] == entries[1..][i - 1]; AnyError(entries[1..]))
  }

  /** Errors in either half of a concatenation are errors of the whole. */
  lemma {:induction false} AnyErrorAppend(a: seq<ImportDiagnostic>, b: seq<ImportDiagnostic>)
    ensures AnyError(a + b) == (AnyError(a) || AnyError(b))
  {
    if a == [] {
      assert a + b == b;
    } else {
      assert (a + b)[0] == a[0];
      assert (a + b)[1..] == a[1..] + b;
      AnyErrorAppend(a[1..], b);
    }
  }

  /** The mutable collection an importer appends to. */
  class ImportDiagnostics {
    var entries: seq<ImportDiagnostic>

    constructor()
      ensures entries == []
    {
      entries := [];
    }

    /** `add(code, message, *, level=WARNING, **context)`: one entry at the end. */
    method Add(code: string, message: string, context: map<string, Option<string>>, level: DiagnosticLevel := DefaultLevel)
      modifies this
      ensures entries == old(entries) + [ImportDiagnostic(code, message, level, context)]
    {
      entries := entries + [ImportDiagnostic(code, message, level, context)];
    }

    /** `extend(other)`: the other collection's entries, in order, after ours. When
        `other` is this very collection its entries are taken before they grow. */
    method Extend(other: ImportDiagnostics)
      modifies this
      ensures entries == old(entries) + old(other.entries)
    {
      entries := entries + other.entries;
    }

    /** `has_errors()`. */
    function HasErrors(): (b: bool)
      reads this
      ensures b <==> exists i :: 0 <= i < |entries| && entries[i].level == Error
    {
      AnyError(entries)
    }
  }

  /** `add` without a level records a warning, which `has_errors` does not count. */
  method AddDefaultsToWarning() returns (d: ImportDiagnostics)
    ensures fresh(d) && d.entries == [ImportDiagnostic("missing_reference", "unknown", Warning, map[])]
    ensures !d.HasErrors()
  {
    d := new ImportDiagnostics();
    d.Add("missing_reference", "unknown", map[]);
  }
}
