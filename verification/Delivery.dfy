/** What a task lookup may call complete: the artifacts a gateway answer must carry before it counts.

    A payload is the record of the fields this code reads or writes; an absent string field is "". Its
    artifacts are the relative paths the extraction step finds in it. */
module Delivery {
  import opened Text

  // A list in a JSON-like map: a decoded list, or a list the bridge put there itself with typed elements.
  datatype ListValue = Absent | Decoded(items: seq<string>) | Typed(items: seq<string>)

  datatype Payload = Payload(
    status: string, event: string, taskStatus: string, terminalSource: string, artifactSyncStatus: string,
    cancellationScope: string, code: string,
    runId: string, taskId: string, openclawSessionKey: string, sessionKey: string, provider: string,
    success: Option<bool>, terminal: bool, pending: bool, constraintSatisfied: Option<bool>,
    artifactScope: string, artifactDirectory: string, artifacts: seq<string>, requiresExport: bool,
    requiredExts: ListValue, missingExts: seq<string>,
    evidence: string, artifactsPresent: bool, artifactCount: int, message: string)

  const BLANK := Payload("", "", "", "", "", "", "", "", "", "", "", "", None, false, false, None,
                         "", "", [], false, Absent, [], "", false, 0, "")

  // The parameters of one lookup.
  datatype Lookup = Lookup(
    runId: string, taskId: string, openclawSessionKey: string, sessionKey: string, provider: string,
    artifactScope: string, artifactDirectory: string, requiresExport: Option<bool>, requiredExts: ListValue)

  datatype Record = Record(
    runId: string, sessionKey: string, provider: string, deadlineAt: Option<int>,
    artifactScope: string, artifactDirectory: string, requiresExport: bool, requiredExts: seq<string>)

  function Or(value: string, fallback: string): string {
    if value == "" then fallback else value
  }

  function RunOf(p: Payload): string {
    Or(Trim(p.runId), Trim(p.taskId))
  }

  function KeyOf(p: Payload): string {
    Or(Trim(p.openclawSessionKey), Trim(p.sessionKey))
  }

  function StatusOf(p: Payload): string {
    Lower(Trim(p.status))
  }

  // A list argument is only seen when it was decoded; a typed list reads as none.
  function ListArg(v: ListValue): seq<string> {
    if v.Decoded? then v.items else []
  }

  // ---- required extensions ----

  function Bare(ext: string): string {
    var lower := Lower(Trim(ext));
    if lower != "" && lower[0] == '.' then lower[1..] else lower
  }

  predicate IsExtension(ext: string) {
    ext != "" && '/' !in ext && '\\' !in ext
  }

  function Merged(values: seq<string>): seq<string> {
    if values == [] then []
    else
      var before, item := Merged(values[..|values| - 1]), Trim(values[|values| - 1]);
      if item == "" || item in before then before else before + [item]
  }

  function ExtList(values: seq<string>): seq<string> {
    if values == [] then []
    else
      var before, ext := ExtList(values[..|values| - 1]), Bare(values[|values| - 1]);
      if !IsExtension(ext) || ext in before then before else before + [ext]
  }

  function RequiredExts(params: Lookup, p: Payload): seq<string> {
    ExtList(Merged(ListArg(params.requiredExts) + ListArg(p.requiredExts)))
  }

  lemma {:induction false} MergedStep(values: seq<string>, value: string)
    ensures Merged(values + [value])
         == if Trim(value) == "" || Trim(value) in Merged(values) then Merged(values) else Merged(values) + [Trim(value)]
  {
    hide Trim;
    assert (values + [value])[..|values|] == values;
  }

  method MergedList(first: seq<string>, second: seq<string>) returns (result: seq<string>)
    ensures result == Merged(first + second)
  {
    hide Merged, Trim;
    result := [];
    var seen: set<string> := {};
    assert Merged([]) == [] by { MergedEmpty(); }
    ghost var done: seq<string> := [];
    var l := 0;
    while l < 2
      invariant 0 <= l <= 2
      invariant done == (if l == 0 then [] else if l == 1 then first else first + second)
      invariant result == Merged(done) && forall item :: item in seen <==> item in result
    {
      var values := if l == 0 then first else second;
      ghost var before := done;
      var k := 0;
      while k < |values|
        invariant 0 <= k <= |values| && done == before + values[..k]
        invariant result == Merged(done) && forall item :: item in seen <==> item in result
      {
        var item := Trim(values[k]);
        MergedStep(done, values[k]);
        done := done + [values[k]];
        if item != "" && item !in seen {
          seen := seen + {item};
          result := result + [item];
        }
        k := k + 1;
      }
      l := l + 1;
    }
  }

  lemma {:induction false} MergedEmpty()
    ensures Merged([]) == []
  {
  }

  method NormalizeExtList(values: seq<string>) returns (result: seq<string>)
    ensures result == ExtList(values)
  {
    result := [];
    var seen: set<string> := {};
    var k := 0;
    while k < |values|
      invariant 0 <= k <= |values|
      invariant result == ExtList(values[..k]) && seen == set ext | ext in result
    {
      assert values[..k + 1][..k] == values[..k];
      var ext := Bare(values[k]);
      if IsExtension(ext) && ext !in seen {
        seen := seen + {ext};
        result := result + [ext];
      }
      k := k + 1;
    }
    assert values[..k] == values;
  }

  lemma {:induction false} MergedHas(values: seq<string>, item: string)
    ensures item in Merged(values) <==> item != "" && exists k :: 0 <= k < |values| && Trim(values[k]) == item
  {
    if values != [] {
      var front := values[..|values| - 1];
      MergedHas(front, item);
      assert forall k :: 0 <= k < |front| ==> front[k] == values[k];
    }
  }

  lemma {:induction false} ExtListHas(values: seq<string>, ext: string)
    ensures ext in ExtList(values) <==> IsExtension(ext) && exists k :: 0 <= k < |values| && Bare(values[k]) == ext
  {
    hide Bare, IsExtension;
    if values != [] {
      var front := values[..|values| - 1];
      ExtListHas(front, ext);
      assert forall k :: 0 <= k < |front| ==> front[k] == values[k];
    }
  }

  /** The required extensions are those named by the lookup or the payload, each once. */
  lemma {:induction false} RequiredExtsAre(params: Lookup, p: Payload, ext: string)
    ensures ext in RequiredExts(params, p)
       <==> IsExtension(ext) && exists v :: v in ListArg(params.requiredExts) + ListArg(p.requiredExts) && Bare(v) == ext
    ensures Distinct(RequiredExts(params, p))
  {
    hide Trim, Lower;
    var values := ListArg(params.requiredExts) + ListArg(p.requiredExts);
    var merged := Merged(values);
    ExtListHas(merged, ext);
    ExtListDistinct(merged);
    assert Bare("") == "" by { BareEmpty(); }
    if v :| v in values && Bare(v) == ext && IsExtension(ext) {
      MergedHas(values, Trim(v));
      BareTrim(v);
      assert exists k :: 0 <= k < |values| && Trim(values[k]) == Trim(v);
      assert Trim(v) != "";
      assert Trim(v) in merged;
      assert exists k :: 0 <= k < |merged| && Bare(merged[k]) == ext;
    }
    if k :| 0 <= k < |merged| && Bare(merged[k]) == ext {
      MergedHas(values, merged[k]);
      var i :| 0 <= i < |values| && Trim(values[i]) == merged[k];
      BareTrim(values[i]);
      assert values[i] in values && Bare(values[i]) == ext;
    }
  }

  lemma {:induction false} BareEmpty()
    ensures Bare("") == ""
  {
    assert Lower("") == "";
  }

  lemma {:induction false} BareTrim(s: string)
    ensures Bare(Trim(s)) == Bare(s)
  {
    TrimTwice(s);
  }

  predicate Distinct(items: seq<string>) {
    forall i, j :: 0 <= i < j < |items| ==> items[i] != items[j]
  }

  lemma {:induction false} ExtListDistinct(values: seq<string>)
    ensures Distinct(ExtList(values))
  {
    hide Bare, IsExtension;
    if values != [] {
      ExtListDistinct(values[..|values| - 1]);
      var before, ext := ExtList(values[..|values| - 1]), Bare(values[|values| - 1]);
      if ext !in before {
        DistinctAppend(before, ext);
      }
    }
  }

  lemma {:induction false} DistinctAppend(items: seq<string>, item: string)
    requires Distinct(items) && item !in items
    ensures Distinct(items + [item])
  {
    assert forall i :: 0 <= i < |items| ==> items[i] in items;
  }

  // ---- which of them are missing ----

  predicate EndsIn(s: string, suffix: string) {
    |s| >= |suffix| && s[|s| - |suffix|..] == suffix
  }

  predicate Delivered(artifacts: seq<string>, ext: string) {
    exists k :: 0 <= k < |artifacts| && EndsIn(Lower(Trim(artifacts[k])), "." + ext)
  }

  function Missing(artifacts: seq<string>, exts: seq<string>): seq<string> {
    if exts == [] then []
    else
      var before, ext := Missing(artifacts, exts[..|exts| - 1]), Bare(exts[|exts| - 1]);
      if ext == "" || Delivered(artifacts, ext) then before else before + [ext]
  }

  method MissingRequiredExtensions(artifacts: seq<string>, exts: seq<string>) returns (missing: seq<string>)
    ensures missing == Missing(artifacts, exts)
  {
    hide Bare;
    missing := [];
    var k := 0;
    while k < |exts|
      invariant 0 <= k <= |exts| && missing == Missing(artifacts, exts[..k])
    {
      assert exts[..k + 1][..k] == exts[..k];
      var normalized := Bare(exts[k]);
      k := k + 1;
      if normalized == "" {
        continue;
      }
      var found := false;
      var j := 0;
      while j < |artifacts|
        invariant 0 <= j <= |artifacts|
        invariant !found && forall i :: 0 <= i < j ==> !EndsIn(Lower(Trim(artifacts[i])), "." + normalized)
      {
        if EndsIn(Lower(Trim(artifacts[j])), "." + normalized) {
          found := true;
          break;
        }
        j := j + 1;
      }
      if !found {
        missing := missing + [normalized];
      }
    }
    assert exts[..k] == exts;
  }

  // An extension that asks for a file: not just dots that stripping leaves empty.
  predicate AsksFor(ext: string) {
    Bare(ext) != ""
  }

  predicate Fulfils(artifacts: seq<string>, exts: seq<string>) {
    forall k :: 0 <= k < |exts| && AsksFor(exts[k]) ==> Delivered(artifacts, Bare(exts[k]))
  }

  /** Nothing is missing exactly when every extension that asks for a file has one. */
  lemma {:induction false} NothingMissing(artifacts: seq<string>, exts: seq<string>)
    ensures Missing(artifacts, exts) == [] <==> Fulfils(artifacts, exts)
  {
    hide Bare, Delivered;
    if exts != [] {
      var front := exts[..|exts| - 1];
      NothingMissing(artifacts, front);
      assert forall k :: 0 <= k < |front| ==> front[k] == exts[k];
    }
  }

  // ---- normalising a lookup answer ----

  predicate UnknownEvidence(p: Payload) {
    && StatusOf(p) == "unknown"
    && (Lower(Trim(p.evidence)) == "artifacts_present" || p.artifactsPresent || p.artifactCount > 0 || p.artifacts != [])
  }

  function ApplyConstraint(p: Payload): Payload {
    if p.success != Some(true) || p.constraintSatisfied != Some(false) then p
    else if StatusOf(p) in {"running", "failed", "cancelled"} then p
    else p.(status := "partially_delivered", artifactSyncStatus := "partial")
  }

  predicate StillActive(record: Option<Record>, now: int) {
    record.Some? && (record.value.deadlineAt.None? || now < record.value.deadlineAt.value)
  }

  function RunningResult(record: Record): Payload {
    BLANK.(success := Some(true), status := "running", runId := record.runId, openclawSessionKey := record.sessionKey,
           provider := record.provider, requiresExport := record.requiresExport,
           artifactScope := record.artifactScope, artifactDirectory := record.artifactDirectory,
           requiredExts := if record.requiredExts != [] then Typed(record.requiredExts) else Absent)
  }

  predicate RequiresExport(params: Lookup, p: Payload) {
    || params.requiresExport == Some(true) || p.requiresExport
    || ListArg(params.requiredExts) != [] || ListArg(p.requiredExts) != []
  }

  function ScopeOf(params: Lookup, p: Payload): string {
    Or(Trim(p.artifactScope), Trim(params.artifactScope))
  }

  function DirectoryOf(params: Lookup, p: Payload): string {
    Or(Trim(p.artifactDirectory), Trim(params.artifactDirectory))
  }

  // What every rewritten answer carries.
  function Labelled(params: Lookup, p: Payload, provider: string): Payload {
    var runId := Or(RunOf(p), Trim(params.runId));
    p.(runId := runId, taskId := runId, openclawSessionKey := Or(KeyOf(p), Trim(params.openclawSessionKey)),
       artifactScope := ScopeOf(params, p), artifactDirectory := DirectoryOf(params, p),
       requiredExts := if RequiredExts(params, p) != [] then Typed(RequiredExts(params, p)) else p.requiredExts,
       provider := if Trim(p.provider) == "" then provider else p.provider)
  }

  function Adjudicated(params: Lookup, p: Payload, provider: string, active: Option<Record>, now: int): Payload {
    var exts := RequiredExts(params, p);
    if StillActive(active, now) then
      var running := RunningResult(active.value);
      if Trim(running.provider) == "" then running.(provider := provider) else running
    else if exts != [] && Missing(p.artifacts, exts) == [] then
      Labelled(params, p.(success := Some(true), status := "completed", event := "completed", pending := false), provider)
    else
      Labelled(params, p.(success := Some(false), status := "failed", event := "failed", pending := false,
                          code := "OPENCLAW_TERMINAL_WITHOUT_EVIDENCE", message := "OPENCLAW_TERMINAL_WITHOUT_EVIDENCE",
                          missingExts := if exts != [] then Missing(p.artifacts, exts) else p.missingExts), provider)
  }

  function Syncing(params: Lookup, p: Payload, provider: string): Payload {
    Labelled(params, p.(success := Some(true), status := "running", event := "running", pending := true, artifactSyncStatus := "syncing",
                        message := "OpenClaw task completed; waiting for artifact export."), provider)
  }

  // The answer of a lookup, from the gateway's payload; an empty payload stays empty.
  function Normalized(params: Lookup, payload: Option<Payload>, provider: string, active: Option<Record>, now: int): Option<Payload> {
    if payload.None? then None
    else
      var p := payload.value;
      if ScopeOf(params, p) == "" && DirectoryOf(params, p) == "" then payload
      else if UnknownEvidence(p) then Some(Adjudicated(params, p, provider, active, now))
      else
        var q := ApplyConstraint(p);
        if Trim(q.status) == "partially_delivered" then Some(q)
        else if q.artifacts != [] && Missing(q.artifacts, RequiredExts(params, p)) == [] then Some(q)
        else if q.success == Some(false) || StatusOf(q) in {"running", "failed", "cancelled"} then Some(q)
        else if !RequiresExport(params, q) then Some(q)
        else Some(Syncing(params, q, provider))
  }

  // Presented as finished successfully: success is not denied, and the status is not one of the others.
  predicate ClaimsSuccess(r: Payload) {
    && r.success != Some(false)
    && StatusOf(r) !in {"running", "failed", "cancelled"} && Trim(r.status) != "partially_delivered"
  }

  lemma {:induction false} SomeRequiredMeansExport(params: Lookup, p: Payload)
    requires RequiredExts(params, p) != []
    ensures RequiresExport(params, p)
  {
    assert ListArg(params.requiredExts) + ListArg(p.requiredExts) != [];
  }

  lemma {:induction false} PlainWord(s: string)
    requires forall i :: 0 <= i < |s| ==> 'a' <= s[i] <= 'z' || s[i] == '_'
    ensures Trim(s) == s && Lower(s) == s
  {
    NoSpaceIsTrimmed(s);
  }

  lemma {:induction false} RewrittenStatuses()
    ensures Trim("running") == "running" && Lower("running") == "running"
    ensures Trim("failed") == "failed" && Lower("failed") == "failed"
    ensures Trim("completed") == "completed" && Lower("completed") == "completed"
    ensures Trim("partially_delivered") == "partially_delivered"
  {
    hide Trim, Lower;
    PlainWord("running");
    PlainWord("failed");
    PlainWord("completed");
    PlainWord("partially_delivered");
  }

  lemma {:induction false} StillActiveClaimsNothing(params: Lookup, p: Payload, provider: string, active: Option<Record>, now: int)
    requires StillActive(active, now)
    ensures !ClaimsSuccess(Adjudicated(params, p, provider, active, now))
  {
    hide Trim, Lower;
    RewrittenStatuses();
  }

  /** Artifacts of unknown status: once the run is no longer active here, the answer is success exactly when
      extensions are required and each that asks for a file has one; otherwise it is a failure. */
  lemma {:induction false} AdjudicatedExactly(params: Lookup, p: Payload, provider: string, active: Option<Record>, now: int)
    requires !StillActive(active, now)
    ensures var r, exts := Adjudicated(params, p, provider, active, now), RequiredExts(params, p);
      && (ClaimsSuccess(r) <==> exts != [] && Fulfils(p.artifacts, exts))
      && (!ClaimsSuccess(r) ==> StatusOf(r) == "failed" && r.success == Some(false))
      && r.artifacts == p.artifacts
  {
    hide Trim, Lower, Missing, RequiredExts, Or, Fulfils;
    RewrittenStatuses();
    NothingMissing(p.artifacts, RequiredExts(params, p));
  }

  lemma {:induction false} SyncingClaimsNothing(params: Lookup, p: Payload, provider: string)
    ensures !ClaimsSuccess(Syncing(params, p, provider))
  {
    hide Trim, Lower, RequiredExts, Or;
    RewrittenStatuses();
  }

  lemma {:induction false} ConstraintKeeps(params: Lookup, p: Payload)
    ensures var q := ApplyConstraint(p);
      RequiresExport(params, q) == RequiresExport(params, p) && q.artifacts == p.artifacts && RunOf(q) == RunOf(p)
  {
    hide Trim, Lower;
  }

  /** The delivery contract: with a known scope and required extensions, an answer is only presented as
      finished successfully when each extension that asks for a file has an artifact ending in it. */
  lemma {:induction false} CompletedMeansDelivered(params: Lookup, p: Payload, provider: string, active: Option<Record>, now: int)
    requires ScopeOf(params, p) != "" || DirectoryOf(params, p) != ""
    requires RequiredExts(params, p) != []
    ensures var r := Normalized(params, Some(p), provider, active, now);
      r.Some? && (ClaimsSuccess(r.value) ==> Fulfils(r.value.artifacts, RequiredExts(params, p)))
  {
    hide Trim, Lower, Missing, RequiredExts, Fulfils, RequiresExport, UnknownEvidence, ApplyConstraint, Adjudicated, Syncing, ScopeOf, DirectoryOf;
    NothingMissing(p.artifacts, RequiredExts(params, p));
    SomeRequiredMeansExport(params, p);
    ConstraintKeeps(params, p);
    SyncingClaimsNothing(params, ApplyConstraint(p), provider);
    if StillActive(active, now) {
      StillActiveClaimsNothing(params, p, provider, active, now);
    } else {
      AdjudicatedExactly(params, p, provider, active, now);
    }
  }

  lemma {:induction false} SyncingChanges(params: Lookup, p: Payload, provider: string)
    requires p.status == "completed"
    ensures Syncing(params, p, provider) != p
  {
    assert Syncing(params, p, provider).status == "running";
  }

  /** A completed payload is only presented as it is when it fulfils what is required; with artifacts, always
      then. */
  lemma {:induction false} CompletedIsKept(params: Lookup, p: Payload, provider: string, active: Option<Record>, now: int)
    requires ScopeOf(params, p) != "" || DirectoryOf(params, p) != ""
    requires p.status == "completed" && p.success == Some(true) && p.constraintSatisfied != Some(false)
    ensures Normalized(params, Some(p), provider, active, now) == Some(p) ==> Fulfils(p.artifacts, RequiredExts(params, p))
    ensures p.artifacts != [] && Fulfils(p.artifacts, RequiredExts(params, p)) ==> Normalized(params, Some(p), provider, active, now) == Some(p)
  {
    hide Trim, Lower, Missing, RequiredExts, Fulfils, RequiresExport, Syncing, ScopeOf, DirectoryOf;
    PlainWord("completed");
    NothingMissing(p.artifacts, RequiredExts(params, p));
    if RequiredExts(params, p) != [] {
      SomeRequiredMeansExport(params, p);
    } else {
      assert Fulfils(p.artifacts, []) by { NothingRequiredFulfils(p.artifacts); }
    }
    SyncingChanges(params, p, provider);
  }

  lemma {:induction false} NothingRequiredFulfils(artifacts: seq<string>)
    ensures Fulfils(artifacts, [])
  {
  }

  // Any file that ends in required ends in ext.
  predicate ImpliesExt(required: string, ext: string) {
    AsksFor(required) && EndsIn("." + Bare(required), "." + Bare(ext))
  }

  predicate Implies(required: seq<string>, exts: seq<string>) {
    forall k :: 0 <= k < |exts| && AsksFor(exts[k]) ==> exists r :: r in required && ImpliesExt(r, exts[k])
  }

  /** What other extensions guarantee: artifacts that fulfil the required ones fulfil these too, if and only if
      each that asks for a file is implied by a required one. */
  lemma {:induction false} ImpliedExactly(required: seq<string>, exts: seq<string>)
    ensures (forall artifacts :: Fulfils(artifacts, required) ==> Fulfils(artifacts, exts)) <==> Implies(required, exts)
    ensures !Implies(required, exts) ==> Files(required) != [] && Fulfils(Files(required), required) && !Fulfils(Files(required), exts)
  {
    hide Bare, Delivered, ImpliesExt;
    if Implies(required, exts) {
      forall artifacts | Fulfils(artifacts, required) ensures Fulfils(artifacts, exts) {
        forall k | 0 <= k < |exts| && AsksFor(exts[k]) ensures Delivered(artifacts, Bare(exts[k])) {
          var r :| r in required && ImpliesExt(r, exts[k]);
          var i :| 0 <= i < |required| && required[i] == r;
          DeliveredImplies(artifacts, required[i], exts[k]);
        }
      }
    } else {
      var k :| 0 <= k < |exts| && AsksFor(exts[k]) && !exists r :: r in required && ImpliesExt(r, exts[k]);
      JustEnough(required, exts[k]);
      assert !Fulfils(Files(required), exts);
    }
  }

  lemma {:induction false} DeliveredImplies(artifacts: seq<string>, required: string, ext: string)
    requires ImpliesExt(required, ext) && (AsksFor(required) ==> Delivered(artifacts, Bare(required)))
    ensures Delivered(artifacts, Bare(ext))
  {
    hide Bare;
    var k :| 0 <= k < |artifacts| && EndsIn(Lower(Trim(artifacts[k])), "." + Bare(required));
    EndsInTwice(Lower(Trim(artifacts[k])), "." + Bare(required), "." + Bare(ext));
  }

  lemma {:induction false} EndsInTwice(a: string, b: string, c: string)
    requires EndsIn(a, b) && EndsIn(b, c)
    ensures EndsIn(a, c)
  {
    assert b[|b| - |c|..] == a[|a| - |c|..];
  }

  // One file without any extension, and one for each required extension.
  function Files(required: seq<string>): seq<string> {
    ["x"] + seq(|required|, k requires 0 <= k < |required| => "x." + Bare(required[k]))
  }

  lemma {:induction false} FileEnds(r: string, ext: string)
    ensures EndsIn(Lower(Trim("x." + Bare(r))), "." + ext) <==> EndsIn("." + Bare(r), "." + ext)
  {
    var file := "x." + Bare(r);
    BareIsPlain(r);
    hide Bare;
    TrimmedStays(file);
    LowerAdds("x.", Bare(r));
    hide Trim, Lower;
    assert Lower("x.") == "x." by { DotIsLower(); }
    EndsInAfterFirst('x', "." + Bare(r), "." + ext);
    assert file == ['x'] + ("." + Bare(r));
  }

  lemma {:induction false} LowerAdds(s: string, t: string)
    ensures Lower(s + t) == Lower(s) + Lower(t)
  {
  }

  lemma {:induction false} DotIsLower()
    ensures Lower("x.") == "x."
  {
  }

  lemma {:induction false} EndsInAfterFirst(c: char, s: string, suffix: string)
    requires suffix != "" && suffix[0] != c
    ensures EndsIn([c] + s, suffix) <==> EndsIn(s, suffix)
  {
    if |suffix| <= |s| {
      assert ([c] + s)[|s| + 1 - |suffix|..] == s[|s| - |suffix|..];
    } else if |suffix| == |s| + 1 {
      assert ([c] + s)[0..] == [c] + s && ([c] + s)[0] == c;
    }
  }

  lemma {:induction false} BareIsPlain(ext: string)
    ensures Lower(Bare(ext)) == Bare(ext) && (Bare(ext) == "" || !IsSpace(Bare(ext)[|Bare(ext)| - 1]))
  {
    TrimTrims(ext);
  }

  lemma {:induction false} FilesEnd(required: seq<string>, ext: string)
    ensures Delivered(Files(required), ext) <==> exists k :: 0 <= k < |required| && EndsIn("." + Bare(required[k]), "." + ext)
  {
    hide Bare, Trim, Lower;
    var files := Files(required);
    PlainWord("x");
    forall k | 0 <= k < |required|
      ensures EndsIn(Lower(Trim(files[k + 1])), "." + ext) <==> EndsIn("." + Bare(required[k]), "." + ext)
    {
      FileEnds(required[k], ext);
    }
    assert files[0] == "x" && "x"[0..] == "x" && "x"[0] != ("." + ext)[0] && !EndsIn("x", "." + ext);
    assert forall i :: 1 <= i < |files| ==> files[i] == files[(i - 1) + 1];
  }

  lemma {:induction false} JustEnough(required: seq<string>, ext: string)
    requires AsksFor(ext) && !exists r :: r in required && ImpliesExt(r, ext)
    ensures Files(required) != [] && Fulfils(Files(required), required) && !Delivered(Files(required), Bare(ext))
  {
    hide Bare, Delivered;
    assert Files(required)[0] == "x";
    hide Files;
    FilesEnd(required, Bare(ext));
    forall k | 0 <= k < |required| && AsksFor(required[k]) ensures Delivered(Files(required), Bare(required[k])) {
      FilesEnd(required, Bare(required[k]));
      assert EndsIn("." + Bare(required[k]), "." + Bare(required[k]));
    }
    assert forall k :: 0 <= k < |required| ==> !ImpliesExt(required[k], ext);
  }

  // ---- extensions that ask for nothing ----

  // There is a file for each of them, asking or not.
  predicate HasAll(artifacts: seq<string>, exts: seq<string>) {
    forall k :: 0 <= k < |exts| ==> Delivered(artifacts, Bare(exts[k]))
  }

  // Each of them asks for a file, or is implied by one that does.
  predicate AllDemanded(exts: seq<string>) {
    forall k :: 0 <= k < |exts| ==> AsksFor(exts[k]) || exists r :: r in exts && ImpliesExt(r, exts[k])
  }

  function Asking(exts: seq<string>): seq<string> {
    if exts == [] then []
    else Asking(exts[..|exts| - 1]) + if AsksFor(exts[|exts| - 1]) then [exts[|exts| - 1]] else []
  }

  lemma {:induction false} AskingHas(exts: seq<string>, ext: string)
    ensures ext in Asking(exts) <==> ext in exts && AsksFor(ext)
  {
    hide AsksFor;
    if exts != [] {
      AskingHas(exts[..|exts| - 1], ext);
      assert exts == exts[..|exts| - 1] + [exts[|exts| - 1]];
    }
  }

  lemma {:induction false} DemandedIsDelivered(artifacts: seq<string>, exts: seq<string>)
    requires AllDemanded(exts) && Fulfils(artifacts, exts)
    ensures HasAll(artifacts, exts)
  {
    hide Bare, Delivered, ImpliesExt, AsksFor;
    forall k | 0 <= k < |exts| ensures Delivered(artifacts, Bare(exts[k])) {
      if !AsksFor(exts[k]) {
        var r :| r in exts && ImpliesExt(r, exts[k]);
        var i :| 0 <= i < |exts| && exts[i] == r;
        DeliveredImplies(artifacts, exts[i], exts[k]);
      }
    }
  }

  // Files for those that ask, and none for one that is not demanded.
  lemma {:induction false} AskingFiles(exts: seq<string>)
    requires !AllDemanded(exts)
    ensures var files := Files(Asking(exts)); files != [] && Fulfils(files, exts) && !HasAll(files, exts)
  {
    hide Bare, Delivered;
    var asking := Asking(exts);
    assert Files(asking)[0] == "x";
    hide Files;
    var e :| 0 <= e < |exts| && !AsksFor(exts[e]) && !exists r :: r in exts && ImpliesExt(r, exts[e]);
    forall k | 0 <= k < |exts| && AsksFor(exts[k]) ensures Delivered(Files(asking), Bare(exts[k])) {
      AskingHas(exts, exts[k]);
      var i :| 0 <= i < |asking| && asking[i] == exts[k];
      FilesEnd(asking, Bare(exts[k]));
      assert EndsIn("." + Bare(asking[i]), "." + Bare(exts[k]));
    }
    forall k | 0 <= k < |asking| ensures !EndsIn("." + Bare(asking[k]), "." + Bare(exts[e])) {
      AskingHas(exts, asking[k]);
      assert !ImpliesExt(asking[k], exts[e]);
    }
    FilesEnd(asking, Bare(exts[e]));
  }

  /** Required extensions, exactly: take a payload of unknown status, for a known scope and a run that is no
      longer active here. Over all artifact lists, an answer that claims success has a file for every required
      extension, if and only if each of these asks for a file or is implied by one that does. */
  lemma {:induction false} AllRequiredExactly(params: Lookup, p: Payload, provider: string, active: Option<Record>, now: int)
    requires (ScopeOf(params, p) != "" || DirectoryOf(params, p) != "") && StatusOf(p) == "unknown" && !StillActive(active, now)
    ensures (forall artifacts :: SucceedsWith(params, p, artifacts, provider, active, now) ==> HasAll(artifacts, RequiredExts(params, p)))
       <==> AllDemanded(RequiredExts(params, p))
  {
    hide Trim, Lower, RequiredExts, Fulfils, HasAll, AllDemanded, Normalized, ScopeOf, DirectoryOf, Adjudicated, ClaimsSuccess;
    var required := RequiredExts(params, p);
    if AllDemanded(required) {
      forall artifacts | SucceedsWith(params, p, artifacts, provider, active, now) ensures HasAll(artifacts, required) {
        if required == [] {
          assert HasAll(artifacts, []) by { NothingRequiredHasAll(artifacts); }
        } else {
          SuccessFulfils(params, p, artifacts, provider, active, now);
          DemandedIsDelivered(artifacts, required);
        }
      }
    } else {
      AskingFiles(required);
      var files := Files(Asking(required));
      FulfilledSucceeds(params, p, files, provider, active, now) by { assert required != [] by { NothingRequiredIsDemanded(); } }
      assert SucceedsWith(params, p, files, provider, active, now) && !HasAll(files, required);
    }
  }

  /** The second case occurs: "." asks for no file, but any file that ends in ".pdf." also ends in ".". */
  lemma {:induction false} DotIsImplied()
    ensures AllDemanded(["pdf.", "."]) && !AsksFor(".")
  {
    hide Trim, Lower;
    assert Trim("pdf.") == "pdf." && Lower("pdf.") == "pdf." && Trim(".") == "." && Lower(".") == "." by { DotWords(); }
    var exts := ["pdf.", "."];
    assert ("." + "pdf.")[4..] == ".";
    assert exts[0] in exts && ImpliesExt(exts[0], exts[1]);
  }

  lemma {:induction false} DotWords()
    ensures Trim("pdf.") == "pdf." && Lower("pdf.") == "pdf." && Trim(".") == "." && Lower(".") == "."
  {
    TrimmedStays("pdf.");
    TrimmedStays(".");
    hide Trim;
  }

  predicate SucceedsWith(params: Lookup, p: Payload, artifacts: seq<string>, provider: string, active: Option<Record>, now: int) {
    var r := Normalized(params, Some(p.(artifacts := artifacts)), provider, active, now);
    r.Some? && ClaimsSuccess(r.value)
  }

  lemma {:induction false} NothingRequiredHasAll(artifacts: seq<string>)
    ensures HasAll(artifacts, [])
  {
  }

  lemma {:induction false} NothingRequiredIsDemanded()
    ensures AllDemanded([])
  {
  }

  lemma {:induction false} OtherArtifacts(params: Lookup, p: Payload, artifacts: seq<string>)
    ensures var q := p.(artifacts := artifacts);
      && ScopeOf(params, q) == ScopeOf(params, p) && DirectoryOf(params, q) == DirectoryOf(params, p)
      && RequiredExts(params, q) == RequiredExts(params, p) && StatusOf(q) == StatusOf(p)
  {
  }

  lemma {:induction false} SuccessFulfils(params: Lookup, p: Payload, artifacts: seq<string>, provider: string, active: Option<Record>, now: int)
    requires (ScopeOf(params, p) != "" || DirectoryOf(params, p) != "") && StatusOf(p) == "unknown" && !StillActive(active, now)
    requires RequiredExts(params, p) != [] && SucceedsWith(params, p, artifacts, provider, active, now)
    ensures Fulfils(artifacts, RequiredExts(params, p))
  {
    hide Trim, Lower, RequiredExts, Fulfils, ScopeOf, DirectoryOf, Adjudicated, ClaimsSuccess, Missing, RequiresExport, StillActive, StatusOf;
    var q := p.(artifacts := artifacts);
    OtherArtifacts(params, p, artifacts);
    CompletedMeansDelivered(params, q, provider, active, now);
    AdjudicatedExactly(params, q, provider, active, now);
    SomeRequiredMeansExport(params, q);
    ConstraintKeeps(params, q);
    SyncingClaimsNothing(params, ApplyConstraint(q), provider);
    NothingMissing(artifacts, RequiredExts(params, p));
    hide Syncing;
  }

  lemma {:induction false} FulfilledSucceeds(params: Lookup, p: Payload, artifacts: seq<string>, provider: string, active: Option<Record>, now: int)
    requires (ScopeOf(params, p) != "" || DirectoryOf(params, p) != "") && StatusOf(p) == "unknown" && !StillActive(active, now)
    requires RequiredExts(params, p) != [] && artifacts != [] && Fulfils(artifacts, RequiredExts(params, p))
    ensures SucceedsWith(params, p, artifacts, provider, active, now)
  {
    hide Trim, Lower, RequiredExts, Fulfils, ScopeOf, DirectoryOf, Adjudicated, ClaimsSuccess, StillActive, StatusOf;
    OtherArtifacts(params, p, artifacts);
    AdjudicatedExactly(params, p.(artifacts := artifacts), provider, active, now);
  }

  /** The extension ".." survives the clean-up of the required list but asks for no file: with it alone, an
      answer without any artifact is presented as completed. */
  lemma {:induction false} DotsAskForNothing()
    ensures var params := Lookup("r", "", "", "", "", "s", "", None, Decoded([".."]));
      var p := BLANK.(status := "unknown", artifactsPresent := true);
      && RequiredExts(params, p) == ["."] && !AsksFor(".")
      && var r := Normalized(params, Some(p), "openclaw", None, 0);
         r.Some? && ClaimsSuccess(r.value) && r.value.artifacts == []
  {
    var params := Lookup("r", "", "", "", "", "s", "", None, Decoded([".."]));
    var p := BLANK.(status := "unknown", artifactsPresent := true);
    DotsAreAnExtension();
    assert ListArg(params.requiredExts) + ListArg(p.requiredExts) == [".."];
    ScopeIsKnown(params, p);
    AdjudicatedExactly(params, p, "openclaw", None, 0);
  }

  lemma {:induction false} DotsAreAnExtension()
    ensures ExtList(Merged([".."])) == ["."] && !AsksFor(".")
  {
    TrimmedStays("..");
    TrimmedStays(".");
    assert Lower("..") == ".." && Lower(".") == ".";
    assert Merged([".."]) == [".."] by {
      MergedStep([], "..");
      assert [] + [".."] == [".."];
    }
    assert [".."][..0] == [];
    assert ExtList([]) == [];
  }

  lemma {:induction false} ScopeIsKnown(params: Lookup, p: Payload)
    requires params.artifactScope == "s" && p == BLANK.(status := "unknown", artifactsPresent := true)
    ensures ScopeOf(params, p) != "" && UnknownEvidence(p)
  {
    hide Trim, Lower;
    PlainWord("s");
    PlainWord("");
    PlainWord("unknown");
  }

  // ---- what each kind of answer becomes ----

  // The lookup or the payload names a scope or a directory.
  predicate KnownScope(params: Lookup, p: Payload) {
    Trim(p.artifactScope) != "" || Trim(params.artifactScope) != "" || Trim(p.artifactDirectory) != "" || Trim(params.artifactDirectory) != ""
  }

  // The lookup or the payload asks for files before the run may end.
  predicate AsksForExport(params: Lookup, p: Payload) {
    params.requiresExport == Some(true) || p.requiresExport
    || (params.requiredExts.Decoded? && params.requiredExts.items != []) || (p.requiredExts.Decoded? && p.requiredExts.items != [])
  }

  lemma {:induction false} ScopeAndExport(params: Lookup, p: Payload)
    ensures KnownScope(params, p) <==> ScopeOf(params, p) != "" || DirectoryOf(params, p) != ""
    ensures AsksForExport(params, p) <==> RequiresExport(params, p)
  {
    hide Trim;
  }

  // Artifacts are there, or said to be.
  predicate SaysArtifacts(p: Payload) {
    Lower(Trim(p.evidence)) == "artifacts_present" || p.artifactsPresent || p.artifactCount > 0 || p.artifacts != []
  }

  // An unknown status that artifacts may settle.
  predicate Unsettled(p: Payload) {
    Lower(Trim(p.status)) == "unknown" && SaysArtifacts(p)
  }

  // The run is said to be going on, or not to have ended well.
  predicate EndsOtherwise(p: Payload) {
    var status := Lower(Trim(p.status));
    status == "running" || status == "failed" || status == "cancelled" || (p.success == Some(false) && !Unsettled(p))
  }

  /** Empty answers, answers without a scope, and those that do not claim success are passed on as they are. */
  lemma {:induction false} PassedOn(params: Lookup, p: Payload, provider: string, active: Option<Record>, now: int)
    ensures Normalized(params, None, provider, active, now) == None
    ensures !KnownScope(params, p) || EndsOtherwise(p) ==> Normalized(params, Some(p), provider, active, now) == Some(p)
  {
    ScopeAndExport(params, p);
    hide Trim, Lower, Missing, RequiredExts, RequiresExport, Syncing, ScopeOf, DirectoryOf, KnownScope, Adjudicated;
  }

  // Any other status, and success not denied.
  predicate ClaimsEnd(p: Payload) {
    var status := Lower(Trim(p.status));
    p.success != Some(false) && !Unsettled(p) && status != "running" && status != "failed" && status != "cancelled"
  }

  // Success claimed against constraints that are not satisfied.
  predicate Violates(p: Payload) {
    p.success == Some(true) && p.constraintSatisfied == Some(false)
  }

  /** A claimed success under a known scope becomes partly delivered when its constraints are not satisfied. */
  lemma {:induction false} ViolationIsPartial(params: Lookup, p: Payload, provider: string, active: Option<Record>, now: int)
    requires KnownScope(params, p) && ClaimsEnd(p) && Violates(p)
    ensures Normalized(params, Some(p), provider, active, now) == Some(p.(status := "partially_delivered", artifactSyncStatus := "partial"))
  {
    hide Trim, Lower, Missing, RequiredExts, RequiresExport, ScopeOf, DirectoryOf, KnownScope, Adjudicated, ApplyConstraint, Syncing,
         UnknownEvidence, Unsettled;
    ScopeAndExport(params, p);
    PlainWord("partially_delivered");
    ConstraintIs(p);
    UnsettledIs(p);
  }

  /** Otherwise it is passed on when it has artifacts that fulfil what is required, when no files are asked
      for, or when it already says partly delivered. */
  lemma {:induction false} ClaimIsPassedOn(params: Lookup, p: Payload, provider: string, active: Option<Record>, now: int)
    requires KnownScope(params, p) && ClaimsEnd(p) && !Violates(p)
    requires Trim(p.status) == "partially_delivered" || !AsksForExport(params, p) || (p.artifacts != [] && Fulfils(p.artifacts, RequiredExts(params, p)))
    ensures Normalized(params, Some(p), provider, active, now) == Some(p)
  {
    ScopeAndExport(params, p);
    NothingMissing(p.artifacts, RequiredExts(params, p));
    ConstraintIs(p);
    hide Trim, Lower, Missing, RequiredExts, RequiresExport, ScopeOf, DirectoryOf, KnownScope, AsksForExport, Adjudicated, ApplyConstraint, Syncing, Fulfils;
  }

  /** And else it is answered as running, its artifacts still syncing, under its run and key. */
  lemma {:induction false} ClaimWaitsForArtifacts(params: Lookup, p: Payload, provider: string, active: Option<Record>, now: int)
    requires KnownScope(params, p) && ClaimsEnd(p) && !Violates(p)
    requires Trim(p.status) != "partially_delivered" && AsksForExport(params, p) && (p.artifacts == [] || !Fulfils(p.artifacts, RequiredExts(params, p)))
    ensures var answer := Normalized(params, Some(p), provider, active, now);
      answer.Some? && var r := answer.value;
      && r.status == "running" && r.event == "running" && r.pending && r.success == Some(true) && r.artifactSyncStatus == "syncing"
      && r.artifacts == p.artifacts && r.terminal == p.terminal && r.taskStatus == p.taskStatus && r.terminalSource == p.terminalSource
      && LabelledLike(params, p, provider, r)
  {
    hide Normalized, KnownScope, ClaimsEnd, Violates, AsksForExport, Fulfils, RequiredExts, LabelledLike, Syncing;
    ClaimSyncs(params, p, provider, active, now);
    SyncingIs(params, p, provider);
  }

  lemma {:induction false} UnsettledIs(p: Payload)
    ensures UnknownEvidence(p) <==> Unsettled(p)
  {
    hide Trim, Lower;
  }

  lemma {:induction false} ClaimSyncs(params: Lookup, p: Payload, provider: string, active: Option<Record>, now: int)
    requires KnownScope(params, p) && ClaimsEnd(p) && !Violates(p)
    requires Trim(p.status) != "partially_delivered" && AsksForExport(params, p) && (p.artifacts == [] || !Fulfils(p.artifacts, RequiredExts(params, p)))
    ensures Normalized(params, Some(p), provider, active, now) == Some(Syncing(params, p, provider))
  {
    hide Trim, Lower, Missing, RequiredExts, RequiresExport, ScopeOf, DirectoryOf, KnownScope, AsksForExport, Adjudicated, ApplyConstraint,
         Syncing, Fulfils, UnknownEvidence, Unsettled;
    ScopeAndExport(params, p);
    NothingMissing(p.artifacts, RequiredExts(params, p));
    ConstraintIs(p);
    UnsettledIs(p);
  }

  lemma {:induction false} ConstraintIs(p: Payload)
    requires ClaimsEnd(p)
    ensures ApplyConstraint(p) == if p.success == Some(true) && p.constraintSatisfied == Some(false)
                                  then p.(status := "partially_delivered", artifactSyncStatus := "partial") else p
  {
    hide Trim, Lower;
  }

  lemma {:induction false} SyncingIs(params: Lookup, p: Payload, provider: string)
    ensures var r := Syncing(params, p, provider);
      && r.status == "running" && r.event == "running" && r.pending && r.success == Some(true) && r.artifactSyncStatus == "syncing"
      && r.artifacts == p.artifacts && r.terminal == p.terminal && r.taskStatus == p.taskStatus && r.terminalSource == p.terminalSource
      && LabelledLike(params, p, provider, r)
  {
    LabelsAre(params, p, provider);
    hide Trim, RequiredExts, ScopeOf, DirectoryOf, LabelledLike;
  }

  // Run id, task id, session key and provider: the payload's own, else the lookup's.
  predicate LabelledLike(params: Lookup, p: Payload, provider: string, r: Payload) {
    var run := if Trim(p.runId) != "" then Trim(p.runId) else if Trim(p.taskId) != "" then Trim(p.taskId) else Trim(params.runId);
    var key := if Trim(p.openclawSessionKey) != "" then Trim(p.openclawSessionKey)
               else if Trim(p.sessionKey) != "" then Trim(p.sessionKey) else Trim(params.openclawSessionKey);
    r.runId == run && r.taskId == run && r.openclawSessionKey == key
    && r.provider == if Trim(p.provider) == "" then provider else p.provider
  }

  lemma {:induction false} LabelsAre(params: Lookup, p: Payload, provider: string)
    ensures LabelledLike(params, p, provider, Syncing(params, p, provider))
  {
    hide Trim, RequiredExts, ScopeOf, DirectoryOf;
  }

  /** An unknown status with artifacts: while the run is active here, its running handle; after that completed
      when extensions are required and fulfilled, and else failed for want of evidence, with what is missing. */
  lemma {:induction false} UnknownStatus(params: Lookup, p: Payload, provider: string, active: Option<Record>, now: int)
    requires KnownScope(params, p) && Unsettled(p)
    ensures var r := Normalized(params, Some(p), provider, active, now);
      var exts := RequiredExts(params, p);
      var live := active.Some? && (active.value.deadlineAt.None? || now < active.value.deadlineAt.value);
      && r.Some?
      && (live ==> r.value.status == "running" && r.value.success == Some(true) && r.value.runId == active.value.runId
                   && r.value.openclawSessionKey == active.value.sessionKey)
      && (!live ==> LabelledLike(params, p, provider, r.value) && !r.value.pending && r.value.artifacts == p.artifacts)
      && (!live && exts != [] && Fulfils(p.artifacts, exts) ==>
            r.value.status == "completed" && r.value.event == "completed" && r.value.success == Some(true))
      && (!live && (exts == [] || !Fulfils(p.artifacts, exts)) ==>
            && r.value.status == "failed" && r.value.event == "failed" && r.value.success == Some(false)
            && r.value.code == "OPENCLAW_TERMINAL_WITHOUT_EVIDENCE"
            && (exts != [] ==> r.value.missingExts == Missing(p.artifacts, exts)))
  {
    ScopeAndExport(params, p);
    NothingMissing(p.artifacts, RequiredExts(params, p));
    hide Trim, Lower, Missing, RequiredExts, RequiresExport, ScopeOf, DirectoryOf, KnownScope, AsksForExport, Fulfils, Syncing;
  }
}
