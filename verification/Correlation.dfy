/** Correlation outcomes: canonical reason lists and the dispatch decision. */
module Correlation {
  import opened Base
  import opened Text
  import opened Sorting

  const DISPATCH_ALGORITHM: string := "correlation-dispatch"
  const DISPATCH_VERSION: string := "1"
  const DISPATCH_MAPPED_VERSION: string := "2"

  datatype Reason =
    | TargetIdentityUnknown
    | AnalysisKindUnknown
    | ScannerFamilyUnknown
    | RuleIdentityUnknown
    | PackageIdentityUnknown
    | VulnerabilityIdentityUnknown
    | LocationIdentityUnknown
    | SourceContextUnknown
    | SourceContextUnsafe
    | UnlistedReason(code: string)

  datatype Error = Invalid

  datatype UncorrelatedSpec = UncorrelatedSpec(
    workspace: string, observation: string, normalizerName: string, normalizerVersion: string,
    algorithm: string, algorithmVersion: string, reasons: seq<Reason>, evaluatedAt: Instant)

  /** What the outcome fingerprint covers: everything but the audit time. */
  datatype CanonicalOutcome = CanonicalOutcome(
    workspace: string, observation: string, normalizerName: string, normalizerVersion: string,
    algorithm: string, algorithmVersion: string, reasons: seq<Reason>)

  datatype DispatchSpec = DispatchSpec(
    workspace: string, observation: string, normalizerName: string, normalizerVersion: string,
    targetKnown: bool, analysisKind: string, scannerFamily: string,
    contextKnown: bool, contextSafe: bool, evaluatedAt: Instant)

  /** The canonical persistence order; absent for a code that is not listed. */
  function ReasonOrder(reason: Reason): int {
    match reason
    case TargetIdentityUnknown => 0
    case AnalysisKindUnknown => 1
    case ScannerFamilyUnknown => 2
    case RuleIdentityUnknown => 3
    case PackageIdentityUnknown => 4
    case VulnerabilityIdentityUnknown => 5
    case LocationIdentityUnknown => 6
    case SourceContextUnknown => 7
    case SourceContextUnsafe => 8
    case UnlistedReason(_) => -1
  }

  const LISTED_REASONS: nat := 9

  predicate ReasonLess(a: Reason, b: Reason) { ReasonOrder(a) < ReasonOrder(b) }

  lemma ReasonsOrdered()
    ensures StrictWeak(ReasonLess)
  {
  }

  predicate ValidHead(spec: UncorrelatedSpec) {
    && ValidOpaqueId(spec.workspace) && ValidOpaqueId(spec.observation)
    && ValidDomainName(spec.normalizerName, 64) && ValidText(spec.normalizerVersion, 1, 64)
    && ValidDomainName(spec.algorithm, 64) && ValidText(spec.algorithmVersion, 1, 64)
    && spec.evaluatedAt != 0
  }

  /** Accepted outcomes: at least one reason, all listed, none twice. */
  ghost predicate ValidOutcome(spec: UncorrelatedSpec) {
    && ValidHead(spec)
    && 1 <= |spec.reasons| <= LISTED_REASONS && AllListed(spec.reasons) && NoRepeats(spec.reasons)
  }

  function OutcomeWith(spec: UncorrelatedSpec, reasons: seq<Reason>): CanonicalOutcome {
    CanonicalOutcome(spec.workspace, spec.observation, spec.normalizerName, spec.normalizerVersion,
                     spec.algorithm, spec.algorithmVersion, reasons)
  }

  ghost function OutcomeRecord(spec: UncorrelatedSpec): CanonicalOutcome {
    ReasonsOrdered();
    OutcomeWith(spec, Arranged(ReasonLess, spec.reasons))
  }

  lemma ListedTies(reasons: seq<Reason>)
    requires AllListed(reasons)
    ensures Distinct(ReasonLess, reasons) <==> NoRepeats(reasons)
  {
    forall i, j | 0 <= i < j < |reasons|
      ensures ReasonLess(reasons[i], reasons[j]) || ReasonLess(reasons[j], reasons[i]) <==> reasons[i] != reasons[j]
    {
    }
  }

  ghost predicate AllListed(reasons: seq<Reason>) {
    forall r :: r in reasons ==> !r.UnlistedReason?
  }

  ghost predicate NoRepeats(reasons: seq<Reason>) {
    forall i, j :: 0 <= i < j < |reasons| ==> reasons[i] != reasons[j]
  }

  method CheckListed(reasons: seq<Reason>) returns (ok: bool)
    ensures ok <==> AllListed(reasons)
  {
    for i := 0 to |reasons|
      invariant forall k :: 0 <= k < i ==> !reasons[k].UnlistedReason?
    {
      if reasons[i].UnlistedReason? {
        return false;
      }
    }
    ok := true;
  }

  /** Among listed reasons in order, adjacent repeats are exactly the ties. */
  method CheckRepeats(reasons: seq<Reason>) returns (ok: bool)
    requires AllListed(reasons) && Sorted(ReasonLess, reasons)
    ensures ok <==> !HasTie(ReasonLess, reasons)
  {
    for i := 0 to |reasons|
      invariant forall k :: 0 < k < i ==> !TieAt(ReasonLess, reasons, k)
    {
      if i > 0 && reasons[i - 1] == reasons[i] {
        assert TieAt(ReasonLess, reasons, i);
        return false;
      }
      assert i > 0 ==> ReasonOrder(reasons[i - 1]) != ReasonOrder(reasons[i]);
    }
    ok := true;
  }

  lemma SortedListed(reasons: seq<Reason>, out: seq<Reason>)
    requires AllListed(reasons) && IsSortOf(ReasonLess, reasons, out)
    ensures AllListed(out)
    ensures HasTie(ReasonLess, out) <==> !NoRepeats(reasons)
    ensures NoRepeats(reasons) ==> (ReasonsOrdered(); out == Arranged(ReasonLess, reasons))
  {
    ReasonsOrdered();
    SortVerdict(ReasonLess, reasons, out);
    ListedTies(reasons);
    forall r | r in out ensures !r.UnlistedReason? {
      assert r in multiset(reasons);
    }
  }

  /** Accepts exactly the valid outcomes; reasons come out in the persistence order without repeats. */
  method CanonicalizeUncorrelated(spec: UncorrelatedSpec) returns (r: Result<CanonicalOutcome, Error>)
    ensures r.Ok? <==> ValidOutcome(spec)
    ensures r.Ok? ==> r.value == OutcomeRecord(spec)
  {
    if !ValidHead(spec) || |spec.reasons| == 0 || |spec.reasons| > LISTED_REASONS {
      return Err(Invalid);
    }
    var listed := CheckListed(spec.reasons);
    if !listed {
      return Err(Invalid);
    }
    ReasonsOrdered();
    var reasons := Sort(ReasonLess, spec.reasons);
    SortedListed(spec.reasons, reasons);
    var distinct := CheckRepeats(reasons);
    if !distinct {
      return Err(Invalid);
    }
    r := Ok(OutcomeWith(spec, reasons));
  }

  lemma OutcomeOrderIndependent(a: UncorrelatedSpec, b: UncorrelatedSpec)
    requires multiset(a.reasons) == multiset(b.reasons) && b.(reasons := a.reasons) == a
    ensures ValidOutcome(a) <==> ValidOutcome(b)
    ensures ValidOutcome(a) ==> OutcomeRecord(a) == OutcomeRecord(b)
  {
    assert |a.reasons| == |multiset(a.reasons)| == |multiset(b.reasons)| == |b.reasons|;
    assert forall x :: x in a.reasons <==> x in multiset(b.reasons);
    DistinctIsOrderFree(ReasonLess, a.reasons, b.reasons);
    if AllListed(a.reasons) {
      ListedTies(a.reasons);
      ListedTies(b.reasons);
    }
    if ValidOutcome(a) {
      ReasonsOrdered();
      SortVerdict(ReasonLess, a.reasons, Arranged(ReasonLess, b.reasons));
    }
  }

  /** The reasons a dispatch records, before validation. */
  function DispatchReasons(spec: DispatchSpec): seq<Reason> {
    var unknownKind := spec.analysisKind == "" || spec.analysisKind == "unknown";
    var first := (if !spec.targetKnown then [TargetIdentityUnknown] else [])
               + (if unknownKind then [AnalysisKindUnknown] else []);
    if first != [] then first
    else
      (if spec.scannerFamily == "" || spec.scannerFamily == "unknown" then [ScannerFamilyUnknown] else [])
      + (if !spec.contextKnown then [SourceContextUnknown]
         else if !spec.contextSafe then [SourceContextUnsafe] else [])
  }

  /** The target and the analysis kind are both known. */
  predicate Mapped(spec: DispatchSpec) {
    spec.targetKnown && spec.analysisKind != "" && spec.analysisKind != "unknown"
  }

  /** When a dispatch is refused before its outcome is validated. */
  predicate DispatchRefused(spec: DispatchSpec) {
    || (spec.analysisKind != "" && spec.analysisKind != "unknown" && !ValidDomainName(spec.analysisKind, 128))
    || (spec.contextSafe && !spec.contextKnown)
    || (&& Mapped(spec)
        && (|| spec.analysisKind != "sast"
            || (spec.scannerFamily != "" && spec.scannerFamily != "unknown"
                && !ValidDomainName(spec.scannerFamily, 128))))
    || DispatchReasons(spec) == []
  }

  function DispatchOutcome(spec: DispatchSpec): UncorrelatedSpec {
    UncorrelatedSpec(spec.workspace, spec.observation, spec.normalizerName, spec.normalizerVersion,
                     DISPATCH_ALGORITHM, if Mapped(spec) then DISPATCH_MAPPED_VERSION else DISPATCH_VERSION,
                     DispatchReasons(spec), spec.evaluatedAt)
  }

  /** The reasons gathered by appending, or none when the dispatch is refused. */
  method GatherReasons(spec: DispatchSpec) returns (reasons: seq<Reason>, version: string)
    ensures reasons == [] <==> DispatchRefused(spec)
    ensures reasons != [] ==> reasons == DispatchReasons(spec)
    ensures reasons != [] ==> version == if Mapped(spec) then DISPATCH_MAPPED_VERSION else DISPATCH_VERSION
  {
    reasons, version := [], DISPATCH_VERSION;
    if !spec.targetKnown {
      reasons := reasons + [TargetIdentityUnknown];
    }
    if spec.analysisKind == "" || spec.analysisKind == "unknown" {
      reasons := reasons + [AnalysisKindUnknown];
    } else if !ValidDomainName(spec.analysisKind, 128) {
      return [], version;
    }
    if spec.contextSafe && !spec.contextKnown {
      return [], version;
    }
    if |reasons| == 0 {
      version := DISPATCH_MAPPED_VERSION;
      if spec.analysisKind != "sast" {
        return [], version;
      }
      if spec.scannerFamily == "" || spec.scannerFamily == "unknown" {
        reasons := reasons + [ScannerFamilyUnknown];
      } else if !ValidDomainName(spec.scannerFamily, 128) {
        return [], version;
      }
      if !spec.contextKnown {
        reasons := reasons + [SourceContextUnknown];
      } else if !spec.contextSafe {
        reasons := reasons + [SourceContextUnsafe];
      }
    }
  }

  method NewDispatchUncorrelated(spec: DispatchSpec) returns (r: Result<UncorrelatedSpec, Error>)
    ensures r.Ok? <==> !DispatchRefused(spec) && ValidOutcome(DispatchOutcome(spec))
    ensures r.Ok? ==> r.value == DispatchOutcome(spec)
  {
    var reasons, version := GatherReasons(spec);
    if |reasons| == 0 {
      return Err(Invalid);
    }
    var outcome := UncorrelatedSpec(spec.workspace, spec.observation, spec.normalizerName, spec.normalizerVersion,
                                    DISPATCH_ALGORITHM, version, reasons, spec.evaluatedAt);
    var canonical := CanonicalizeUncorrelated(outcome);
    if canonical.Err? {
      return Err(canonical.error);
    }
    r := Ok(outcome);
  }

  lemma DispatchNames()
    ensures ValidDomainName(DISPATCH_ALGORITHM, 64)
    ensures ValidText(DISPATCH_VERSION, 1, 64) && ValidText(DISPATCH_MAPPED_VERSION, 1, 64)
  {
    assert Runes("1"[1..]) == 0 && Runes("2"[1..]) == 0;
  }

  /**
   The import processor's dispatch, which knows a target exactly when the
   import carries an analysis context, is always recorded: version 1 with the
   two identity reasons, or version 2 with the family and context reasons.
   */
  lemma ImportDispatchIsValid(spec: DispatchSpec)
    requires ValidOpaqueId(spec.workspace) && ValidOpaqueId(spec.observation) && spec.evaluatedAt != 0
    requires ValidDomainName(spec.normalizerName, 64) && ValidText(spec.normalizerVersion, 1, 64)
    requires !spec.contextKnown && !spec.contextSafe && spec.scannerFamily == "unknown"
    requires spec.analysisKind == (if spec.targetKnown then "sast" else "unknown")
    ensures !DispatchRefused(spec) && ValidOutcome(DispatchOutcome(spec))
    ensures DispatchOutcome(spec).algorithmVersion == (if spec.targetKnown then "2" else "1")
    ensures DispatchOutcome(spec).reasons ==
            (if spec.targetKnown then [ScannerFamilyUnknown, SourceContextUnknown]
             else [TargetIdentityUnknown, AnalysisKindUnknown])
  {
    DispatchNames();
  }
}
