/**
  * The invariant of the recorder (code_auditor/trajectory.py:537-766): every step meets the validator's
  * rules but for what callers supply (distinct call ids, usable references), and every pending call points
  * at the step that declared it.
  */
module RecorderInvariant {
  import opened Wrappers
  import opened Atif
  import opened RecorderState

  // ----- what the recorder guarantees of a step by itself ----------------------------------

  predicate HasSoundCalls(d: Dict) {
    IsAbsentOr(Get(d, ToolCalls),
               Get(d, ToolCalls).List? && forall i :: 0 <= i < |CallsOf(d)| ==> ConformsCall(CallsOf(d)[i]))
  }

  /** A result that conforms but for the contents of its references. */
  predicate IsSoundResult(v: Value, callIds: set<string>) {
    && v.Obj?
    && IsAbsentOr(Get(v.fields, SourceCallId),
                  Get(v.fields, SourceCallId).Str? && Get(v.fields, SourceCallId).s in callIds)
    && IsAbsentOr(Get(v.fields, Content), IsText(Get(v.fields, Content)))
    && v.fields.Keys <= RESULT_FIELDS
    && IsAbsentOr(Get(v.fields, SubagentRef), Get(v.fields, SubagentRef).List?)
  }

  predicate HasSoundResults(d: Dict) {
    IsAbsentOr(Get(d, Observation),
               && Get(d, Observation).Obj?
               && Get(Get(d, Observation).fields, Results).List?
               && forall i :: 0 <= i < |ResultsOf(d)| ==> IsSoundResult(ResultsOf(d)[i], CallIds(CallsOf(d))))
  }

  datatype Aspect = HeaderRules | RoleRules | CallRules | ResultRules | MetricRules

  predicate Meets(d: Dict, index: int, a: Aspect) {
    match a
    case HeaderRules => ConformsHeader(d, index)
    case RoleRules => ConformsRole(d)
    case CallRules => HasSoundCalls(d)
    case ResultRules => HasSoundResults(d)
    case MetricRules => ConformsMetrics(Get(d, Metrics))
  }

  /** Everything the validator asks of a step, except distinct call ids and usable references. */
  ghost predicate IsSound(d: Dict, index: int) {
    forall a: Aspect :: Meets(d, index, a)
  }

  /** What the callers are responsible for: distinct call ids, and references that point somewhere. */
  predicate IsClean(d: Dict) {
    HaveDistinctIds(CallsOf(d)) && HasCleanRefs(ResultsOf(d))
  }

  predicate HasCleanRefs(results: seq<Value>) {
    forall i :: 0 <= i < |results| ==> AreCleanRefs(RefsOfResult(results[i]))
  }

  predicate AreCleanRefs(refs: seq<Value>) {
    forall k :: 0 <= k < |refs| ==> ConformsRef(refs[k])
  }

  lemma {:induction false} SoundAndClean(d: Dict, index: int)
    requires IsSound(d, index)
    ensures ConformsStep(d, index) <==> IsClean(d)
  {
    assert Meets(d, index, HeaderRules) && Meets(d, index, RoleRules) && Meets(d, index, CallRules);
    assert Meets(d, index, ResultRules) && Meets(d, index, MetricRules);
    forall i | 0 <= i < |ResultsOf(d)|
      ensures ConformsResult(ResultsOf(d)[i], CallIds(CallsOf(d))) <==> AreCleanRefs(RefsOfResult(ResultsOf(d)[i]))
    {
      assert IsSoundResult(ResultsOf(d)[i], CallIds(CallsOf(d)));
    }
  }

  // ----- the invariant of the recorder ---------------------------------------------------------

  ghost predicate IsValid(st: State) {
    && (forall i :: IsSoundAt(st.steps, i))
    && (forall id :: IsPendingAt(st, id))
    && (st.lastAgentStep.Some? ==> IsAgentAt(st.steps, st.lastAgentStep.value))
    && (st.codexStep.Some? ==> IsAgentAt(st.steps, st.codexStep.value))
  }

  ghost predicate IsSoundAt(steps: seq<Dict>, i: int) {
    0 <= i < |steps| ==> IsSound(steps[i], i + 1)
  }

  /** A pending call points at the step that declared it. */
  predicate IsPendingAt(st: State, id: string) {
    id in st.pending ==> 1 <= st.pending[id] <= |st.steps| && id in CallIds(CallsOf(st.steps[st.pending[id] - 1]))
  }

  predicate IsAgentAt(steps: seq<Dict>, n: nat) {
    1 <= n <= |steps| && IsAgentStep(steps[n - 1])
  }

  ghost predicate AllClean(steps: seq<Dict>) {
    forall i :: IsCleanAt(steps, i)
  }

  predicate IsCleanAt(steps: seq<Dict>, i: int) {
    0 <= i < |steps| ==> IsClean(steps[i])
  }

  /** A change to one step that keeps it sound and keeps what the rest of the state relies on. */
  predicate IsKept(d: Dict, d': Dict) {
    CallsOf(d') == CallsOf(d) && (IsAgentStep(d) ==> IsAgentStep(d'))
  }

  lemma {:induction false} StepReplaced(st: State, i: nat, d': Dict)
    requires IsValid(st) && i < |st.steps| && IsSound(d', i + 1) && IsKept(st.steps[i], d')
    ensures IsValid(st.(steps := st.steps[i := d']))
    ensures AllClean(st.steps[i := d']) <==> IsClean(d') && forall j :: j == i || IsCleanAt(st.steps, j)
  {
    var st' := st.(steps := st.steps[i := d']);
    forall j
      ensures IsSoundAt(st'.steps, j)
    {
      assert IsSoundAt(st.steps, j);
    }
    forall id
      ensures IsPendingAt(st', id)
    {
      assert IsPendingAt(st, id);
    }
    forall j
      ensures IsCleanAt(st'.steps, j) <==> if j == i then IsClean(d') else IsCleanAt(st.steps, j)
    {
    }
    if AllClean(st'.steps) {
      assert IsCleanAt(st'.steps, i);
      forall j | j != i
        ensures IsCleanAt(st.steps, j)
      {
        assert IsCleanAt(st'.steps, j);
      }
    }
  }

  /** A replaced step is as clean as before: the whole document is as clean as before. */
  lemma {:induction false} StepKept(st: State, i: nat, d': Dict)
    requires IsValid(st) && i < |st.steps| && IsSound(d', i + 1) && IsKept(st.steps[i], d')
    requires IsClean(d') <==> IsClean(st.steps[i])
    ensures IsValid(st.(steps := st.steps[i := d']))
    ensures AllClean(st.steps[i := d']) <==> AllClean(st.steps)
  {
    StepReplaced(st, i, d');
    assert IsCleanAt(st.steps, i) <==> IsClean(st.steps[i]);
  }

  lemma {:induction false} StepAdded(st: State, d: Dict)
    requires IsValid(st) && IsSound(d[StepId := Int(|st.steps| + 1)], |st.steps| + 1)
    ensures IsValid(AddStep(st, d))
    ensures AllClean(AddStep(st, d).steps) <==> AllClean(st.steps) && IsClean(d)
  {
    var st' := AddStep(st, d);
    var n := |st.steps|;
    var d' := d[StepId := Int(n + 1)];
    forall j
      ensures IsSoundAt(st'.steps, j)
    {
      assert IsSoundAt(st.steps, j);
    }
    forall id
      ensures IsPendingAt(st', id)
    {
      assert IsPendingAt(st, id);
    }
    assert CallsOf(d') == CallsOf(d) && ResultsOf(d') == ResultsOf(d);
    assert IsClean(d') <==> IsClean(d);
    if AllClean(st'.steps) {
      assert IsCleanAt(st'.steps, n);
      forall j
        ensures IsCleanAt(st.steps, j)
      {
        assert IsCleanAt(st'.steps, j);
      }
    }
    if AllClean(st.steps) && IsClean(d) {
      forall j
        ensures IsCleanAt(st'.steps, j)
      {
        assert IsCleanAt(st.steps, j);
      }
    }
  }

  // ----- steps -----------------------------------------------------------------------------------

  lemma {:induction false} SourcesDiffer()
    ensures SYSTEM != AGENT && USER != AGENT
  {
    assert |SYSTEM| == 6 && |USER| == 4 && |AGENT| == 5;
  }

  lemma {:induction false} PlainFields(source: string, time: string, message: string, extra: Dict)
    ensures IsPlain(PlainStep(source, time, message, extra), source)
  {
    assert {Source, Message, Timestamp, Extra} <= STEP_FIELDS;
  }

  ghost predicate IsPlain(d: Dict, source: string) {
    && Get(d, Source) == Str(source) && Get(d, Message).Str? && Get(d, Timestamp).Str? && d.Keys <= STEP_FIELDS
    && forall k :: IsAbsentUnlessPlain(d, k)
  }

  predicate IsAbsentUnlessPlain(d: Dict, k: Key) {
    Get(d, k) == Null || k == StepId || k == Source || k == Message || k == Timestamp || k == Extra
  }

  lemma {:induction false} PlainNumbered(d: Dict, source: string, n: nat)
    requires IsPlain(d, source)
    ensures IsPlain(d[StepId := Int(n)], source)
  {
    NumberedFields(d, n, Source);
    NumberedFields(d, n, Message);
    NumberedFields(d, n, Timestamp);
    var d' := d[StepId := Int(n)];
    forall k
      ensures IsAbsentUnlessPlain(d', k)
    {
      assert IsAbsentUnlessPlain(d, k);
    }
  }

  lemma {:induction false} PlainIsAbsent(d: Dict, source: string, k: Key)
    requires IsPlain(d, source) && k != StepId && k != Source && k != Message && k != Timestamp && k != Extra
    ensures Get(d, k) == Null
  {
    assert IsAbsentUnlessPlain(d, k);
  }

  lemma {:induction false} PlainHeader(d: Dict, source: string, n: nat)
    requires (source == SYSTEM || source == USER) && IsPlain(d, source) && Get(d, StepId) == Int(n)
    ensures ConformsHeader(d, n) && !IsAgentStep(d)
  {
    SourcesDiffer();
    PlainIsAbsent(d, source, ReasoningEffort);
    PlainIsAbsent(d, source, IsCopiedContext);
    PlainIsAbsent(d, source, LlmCallCount);
  }

  lemma {:induction false} PlainRole(d: Dict, source: string)
    requires IsPlain(d, source) && !IsAgentStep(d)
    ensures ConformsRole(d) && Get(d, ToolCalls).Null? && Get(d, Metrics).Null? && Get(d, Observation).Null?
  {
    PlainIsAbsent(d, source, ModelName);
    PlainIsAbsent(d, source, ReasoningEffort);
    PlainIsAbsent(d, source, ReasoningContent);
    PlainIsAbsent(d, source, ToolCalls);
    PlainIsAbsent(d, source, Metrics);
    PlainIsAbsent(d, source, Observation);
  }

  lemma {:induction false} PlainIsSound(d: Dict, source: string, n: nat)
    requires (source == SYSTEM || source == USER) && IsPlain(d, source) && Get(d, StepId) == Int(n)
    ensures IsSound(d, n) && CallsOf(d) == [] && ResultsOf(d) == []
  {
    PlainHeader(d, source, n);
    PlainRole(d, source);
    forall a: Aspect
      ensures Meets(d, n, a)
    {
    }
  }

  lemma {:induction false} PlainStepIsSound(source: string, time: string, message: string, extra: Dict, n: nat)
    requires source == SYSTEM || source == USER
    ensures IsSound(PlainStep(source, time, message, extra)[StepId := Int(n)], n)
    ensures IsClean(PlainStep(source, time, message, extra))
  {
    PlainFields(source, time, message, extra);
    var d := PlainStep(source, time, message, extra);
    PlainNumbered(d, source, n);
    PlainIsSound(d[StepId := Int(n)], source, n);
    PlainIsAbsent(d, source, ToolCalls);
    PlainIsAbsent(d, source, Observation);
  }

  predicate HaveDistinctCallIds(calls: seq<Call>) {
    forall i, j :: 0 <= i < j < |calls| ==> calls[i].Id() != calls[j].Id()
  }

  lemma {:induction false} CallValueConforms(c: Call)
    ensures ConformsCall(c.Value()) && CallId(c.Value()).Some? && CallId(c.Value()).value == c.Id()
  {
    var d := c.Value().fields;
    assert d.Keys <= {ToolCallId, FunctionName, Arguments, Extra};
    assert {ToolCallId, FunctionName, Arguments, Extra} <= CALL_FIELDS;
    assert Get(d, ToolCallId) == Str(c.Id());
  }

  lemma {:induction false} CallValuesConform(calls: seq<Call>)
    ensures forall i :: 0 <= i < |calls| ==> ConformsCall(CallValues(calls)[i])
    ensures HaveDistinctIds(CallValues(calls)) <==> HaveDistinctCallIds(calls)
  {
    var vs := CallValues(calls);
    forall i | 0 <= i < |calls|
      ensures ConformsCall(vs[i]) && CallId(vs[i]).Some? && CallId(vs[i]).value == calls[i].Id()
    {
      CallValueConforms(calls[i]);
    }
  }

  lemma {:induction false} CallIdsOfCalls(calls: seq<Call>)
    ensures CallIds(CallValues(calls)) == IdsOf(calls)
  {
    var vs := CallValues(calls);
    forall c | c in calls
      ensures c.Value() in vs && CallId(c.Value()) == Some(c.Id())
    {
      var i :| 0 <= i < |calls| && calls[i] == c;
      assert vs[i] == c.Value();
      CallValueConforms(c);
    }
    forall v | v in vs
      ensures exists c :: c in calls && v == c.Value()
    {
      var i :| 0 <= i < |vs| && vs[i] == v;
      assert calls[i] in calls;
    }
  }

  /** What an agent step holds in a field. */
  function AgentValue(s: Settings, a: AgentArgs, k: Key): Value {
    Get(StepFields(s, a, CallValues(a.calls)), k)
  }

  lemma {:induction false} AgentField(s: Settings, a: AgentArgs, k: Key)
    ensures Get(AgentDict(s, a), k) == AgentValue(s, a, k)
  {
  }

  lemma {:induction false} NumberedFields(d: Dict, n: nat, k: Key)
    ensures Get(d[StepId := Int(n)], k) == if k == StepId then Int(n) else Get(d, k)
    ensures d.Keys <= STEP_FIELDS ==> d[StepId := Int(n)].Keys <= STEP_FIELDS
  {
    assert StepId in STEP_FIELDS;
  }

  /** What matters of an agent step: its calls, and the header and role rules. */
  predicate IsAgentShaped(d: Dict, calls: seq<Value>, llmCalls: nat) {
    && Get(d, Source) == Str(AGENT) && Get(d, Message).Str? && Get(d, Timestamp).Str? && d.Keys <= STEP_FIELDS
    && Get(d, LlmCallCount) == Int(llmCalls) && IsAbsentOr(Get(d, ReasoningEffort), Get(d, ReasoningEffort).Str?)
    && (llmCalls == 0 ==> Get(d, ReasoningContent).Null?)
    && Get(d, IsCopiedContext).Null? && Get(d, Observation).Null? && Get(d, Metrics).Null?
    && Get(d, ToolCalls) == if calls == [] then Null else List(calls)
  }

  lemma {:induction false} AgentKeys(s: Settings, a: AgentArgs)
    ensures AgentDict(s, a).Keys <= STEP_FIELDS
  {
    assert {Source, Message, Timestamp, ModelName, ReasoningEffort, ReasoningContent, ToolCalls, LlmCallCount, Extra}
        <= STEP_FIELDS;
  }

  predicate HasField(d: Dict, s: Settings, a: AgentArgs, k: Key) {
    Get(d, k) == AgentValue(s, a, k)
  }

  lemma {:induction false} AgentTexts(d: Dict, s: Settings, a: AgentArgs)
    requires forall k :: HasField(d, s, a, k)
    ensures Get(d, Source) == Str(AGENT) && Get(d, Message).Str? && Get(d, Timestamp).Str?
    ensures IsAbsentOr(Get(d, ReasoningEffort), Get(d, ReasoningEffort).Str?)
    ensures Get(d, LlmCallCount) == Int(a.llmCalls) && (a.llmCalls == 0 ==> Get(d, ReasoningContent).Null?)
  {
    assert HasField(d, s, a, Source) && HasField(d, s, a, Message) && HasField(d, s, a, Timestamp);
    assert HasField(d, s, a, LlmCallCount) && HasField(d, s, a, ReasoningEffort);
    assert HasField(d, s, a, ReasoningContent);
  }

  lemma {:induction false} AgentShape(d: Dict, s: Settings, a: AgentArgs)
    requires d.Keys <= STEP_FIELDS && forall k :: HasField(d, s, a, k)
    ensures IsAgentShaped(d, CallValues(a.calls), a.llmCalls)
  {
    AgentTexts(d, s, a);
    assert HasField(d, s, a, IsCopiedContext);
    assert HasField(d, s, a, Observation) && HasField(d, s, a, Metrics) && HasField(d, s, a, ToolCalls);
  }

  lemma {:induction false} AgentDictShape(s: Settings, a: AgentArgs)
    ensures IsAgentShaped(AgentDict(s, a), CallValues(a.calls), a.llmCalls)
  {
    AgentKeys(s, a);
    var d := AgentDict(s, a);
    forall k
      ensures HasField(d, s, a, k)
    {
      AgentField(s, a, k);
    }
    AgentShape(d, s, a);
  }

  lemma {:induction false} AgentNumbered(d: Dict, calls: seq<Value>, llmCalls: nat, n: nat)
    requires IsAgentShaped(d, calls, llmCalls)
    ensures IsAgentShaped(d[StepId := Int(n)], calls, llmCalls)
  {
    assert StepId in STEP_FIELDS;
  }

  lemma {:induction false} AgentMeetsAll(d: Dict, calls: seq<Value>, llmCalls: nat, n: nat)
    requires IsAgentShaped(d, calls, llmCalls) && Get(d, StepId) == Int(n)
    requires forall i :: 0 <= i < |calls| ==> ConformsCall(calls[i])
    ensures IsSound(d, n) && IsAgentStep(d) && CallsOf(d) == calls && ResultsOf(d) == []
  {
    assert CallsOf(d) == calls && ResultsOf(d) == [];
    assert ConformsHeader(d, n);
    forall a: Aspect
      ensures Meets(d, n, a)
    {
    }
  }

  lemma {:induction false} AgentIsSound(d: Dict, calls: seq<Value>, llmCalls: nat, n: nat)
    requires IsAgentShaped(d, calls, llmCalls) && forall i :: 0 <= i < |calls| ==> ConformsCall(calls[i])
    ensures IsSound(d[StepId := Int(n)], n) && IsAgentStep(d)
    ensures CallsOf(d) == calls && ResultsOf(d) == [] && CallsOf(d[StepId := Int(n)]) == calls
  {
    AgentNumbered(d, calls, llmCalls, n);
    AgentMeetsAll(d[StepId := Int(n)], calls, llmCalls, n);
  }

  // ----- results -----------------------------------------------------------------------------------

  predicate AreGoodRefs(refs: seq<Dict>) {
    forall k :: 0 <= k < |refs| ==> ConformsRef(Obj(refs[k]))
  }

  lemma {:induction false} ResultFields(r: ResultArgs)
    ensures var v := MatchedResult(r).fields;
            && Get(v, SourceCallId) == Str(r.callId) && Get(v, Content) == Str(r.content)
            && Get(v, SubagentRef) == RefsField(r) && v.Keys <= RESULT_FIELDS
    ensures var v := OrphanedResult(r).fields;
            && Get(v, SourceCallId).Null? && Get(v, Content) == Str(r.content)
            && Get(v, SubagentRef) == RefsField(r) && v.Keys <= RESULT_FIELDS
  {
    assert {SourceCallId, Content, SubagentRef, Extra} <= RESULT_FIELDS;
  }

  lemma {:induction false} ResultIsSound(r: ResultArgs, callIds: set<string>)
    ensures r.callId in callIds ==> IsSoundResult(MatchedResult(r), callIds)
    ensures IsSoundResult(OrphanedResult(r), callIds)
    ensures AreCleanRefs(RefsOfResult(MatchedResult(r))) <==> AreGoodRefs(r.refs)
    ensures AreCleanRefs(RefsOfResult(OrphanedResult(r))) <==> AreGoodRefs(r.refs)
  {
    ResultFields(r);
  }

  /** Adding a result changes the observation only, and adds exactly that result. */
  lemma {:induction false} ResultAdded(d: Dict, v: Value)
    ensures ResultsOf(AddResult(d, v)) == ResultsOf(d) + [v]
    ensures CallsOf(AddResult(d, v)) == CallsOf(d)
    ensures DiffersOnlyIn(d, AddResult(d, v), Observation)
  {
  }

  lemma {:induction false} CleanResults(rs: seq<Value>, v: Value)
    ensures HasCleanRefs(rs + [v]) <==> HasCleanRefs(rs) && AreCleanRefs(RefsOfResult(v))
  {
    var more := rs + [v];
    assert forall i :: 0 <= i < |rs| ==> more[i] == rs[i];
    assert more[|rs|] == v;
  }

  lemma {:induction false} SoundResultsGrow(d: Dict, v: Value)
    requires HasSoundResults(d) && IsSoundResult(v, CallIds(CallsOf(d)))
    ensures HasSoundResults(AddResult(d, v))
  {
    var d' := AddResult(d, v);
    ResultAdded(d, v);
    forall i | 0 <= i < |ResultsOf(d')|
      ensures IsSoundResult(ResultsOf(d')[i], CallIds(CallsOf(d')))
    {
      if i < |ResultsOf(d)| {
        assert ResultsOf(d')[i] == ResultsOf(d)[i];
      }
    }
  }

  lemma {:induction false} SoundWithResult(d: Dict, v: Value, n: nat)
    requires IsSound(d, n) && IsSoundResult(v, CallIds(CallsOf(d)))
    ensures IsSound(AddResult(d, v), n)
    ensures IsClean(AddResult(d, v)) <==> IsClean(d) && AreCleanRefs(RefsOfResult(v))
  {
    ResultAdded(d, v);
    CleanResults(ResultsOf(d), v);
    assert Meets(d, n, ResultRules);
    SoundResultsGrow(d, v);
    OneFieldChanged(d, AddResult(d, v), Observation, n);
  }

  ghost predicate DiffersOnlyIn(d: Dict, d': Dict, k: Key) {
    && d'.Keys <= d.Keys + {k}
    && forall x :: x != k ==> Get(d', x) == Get(d, x)
  }

  /** A change of one optional field leaves the header as it is. */
  lemma {:induction false} SameHeader(d: Dict, d': Dict, k: Key, n: nat)
    requires ConformsHeader(d, n) && DiffersOnlyIn(d, d', k) && (k == Observation || k == Extra || k == Metrics)
    ensures ConformsHeader(d', n) && IsAgentStep(d') == IsAgentStep(d)
  {
    assert k in STEP_FIELDS;
  }

  /** And, unless it is the metrics, the rules about agent fields. */
  lemma {:induction false} SameRole(d: Dict, d': Dict, k: Key)
    requires ConformsRole(d) && DiffersOnlyIn(d, d', k) && (k == Observation || k == Extra)
    ensures ConformsRole(d') && Get(d', Metrics) == Get(d, Metrics) && Get(d', ToolCalls) == Get(d, ToolCalls)
  {
  }

  lemma {:induction false} OneFieldChanged(d: Dict, d': Dict, k: Key, n: nat)
    requires IsSound(d, n) && DiffersOnlyIn(d, d', k) && (k == Extra || (k == Observation && HasSoundResults(d')))
    ensures IsSound(d', n) && CallsOf(d') == CallsOf(d) && IsAgentStep(d') == IsAgentStep(d)
  {
    assert Meets(d, n, HeaderRules) && Meets(d, n, RoleRules) && Meets(d, n, CallRules) && Meets(d, n, MetricRules);
    assert Meets(d, n, ResultRules);
    SameHeader(d, d', k, n);
    SameRole(d, d', k);
    CallsFollow(d, d');
    ResultsFollow(d, d');
    forall a: Aspect
      ensures Meets(d', n, a)
    {
    }
  }

  lemma {:induction false} CallsFollow(d: Dict, d': Dict)
    requires Get(d', ToolCalls) == Get(d, ToolCalls)
    ensures CallsOf(d') == CallsOf(d) && (HasSoundCalls(d') <==> HasSoundCalls(d))
  {
  }

  lemma {:induction false} ResultsFollow(d: Dict, d': Dict)
    requires CallsOf(d') == CallsOf(d)
    ensures Get(d', Observation) == Get(d, Observation) ==>
              ResultsOf(d') == ResultsOf(d) && (HasSoundResults(d') <==> HasSoundResults(d))
  {
  }

  lemma {:induction false} OrphanShape(time: string)
    ensures IsAgentShaped(OrphanStep(time), [], 0)
  {
    assert {Source, Message, Timestamp, LlmCallCount, Extra} <= STEP_FIELDS;
    assert OrphanStep(time).Keys == {Source, Message, Timestamp, LlmCallCount, Extra};
  }

  lemma {:induction false} OrphanStepIsSound(time: string, n: nat)
    ensures IsSound(OrphanStep(time)[StepId := Int(n)], n) && IsClean(OrphanStep(time))
    ensures CallsOf(OrphanStep(time)) == []
  {
    OrphanShape(time);
    AgentIsSound(OrphanStep(time), [], 0, n);
  }

  /** The step that a result is attached to, if its call is known. */
  function TargetOf(st: State, r: ResultArgs): nat {
    if r.callId in st.pending then st.pending[r.callId] else 0
  }

  lemma {:induction false} ResultIsMatched(st: State, r: ResultArgs, target: nat)
    requires target == TargetOf(st, r) && 1 <= target <= |st.steps|
    ensures ToolResult(st, r).steps ==
            st.steps[target - 1 := AddResult(st.steps[target - 1], MatchedResult(r))]
  {
  }

  lemma {:induction false} ResultIsOrphaned(st: State, r: ResultArgs)
    requires !(1 <= TargetOf(st, r) <= |st.steps|)
    ensures ToolResult(st, r).steps == AddStep(st, AddResult(OrphanStep(r.time), OrphanedResult(r))).steps
  {
  }

  /** A result lands in the step that its pending call points at. */
  lemma {:induction false} MatchedKeeps(st: State, i: nat, r: ResultArgs)
    requires IsValid(st) && i < |st.steps| && r.callId in CallIds(CallsOf(st.steps[i]))
    ensures var st' := st.(steps := st.steps[i := AddResult(st.steps[i], MatchedResult(r))]);
            IsValid(st') && (AllClean(st'.steps) <==> AllClean(st.steps) && AreGoodRefs(r.refs))
  {
    var d := st.steps[i];
    assert IsSoundAt(st.steps, i);
    ResultIsSound(r, CallIds(CallsOf(d)));
    MatchedWith(st, i, MatchedResult(r));
  }

  lemma {:induction false} MatchedWith(st: State, i: nat, v: Value)
    requires IsValid(st) && i < |st.steps| && IsSoundResult(v, CallIds(CallsOf(st.steps[i])))
    ensures var st' := st.(steps := st.steps[i := AddResult(st.steps[i], v)]);
            IsValid(st') && (AllClean(st'.steps) <==> AllClean(st.steps) && AreCleanRefs(RefsOfResult(v)))
  {
    var d := st.steps[i];
    assert IsSoundAt(st.steps, i);
    SoundWithResult(d, v, i + 1);
    StepReplaced(st, i, AddResult(d, v));
    CleanElsewhere(st.steps, i, AddResult(d, v));
  }

  lemma {:induction false} ToolResultKeeps(st: State, r: ResultArgs)
    requires IsValid(st)
    ensures IsValid(ToolResult(st, r)) && |ToolResult(st, r).steps| >= |st.steps|
    ensures AllClean(ToolResult(st, r).steps) <==> AllClean(st.steps) && AreGoodRefs(r.refs)
  {
    assert IsPendingAt(st, r.callId);
    PoppedIsValid(st, r.callId);
    var popped := st.(pending := st.pending - {r.callId});
    if r.callId in st.pending {
      MatchedKeeps(popped, st.pending[r.callId] - 1, r);
    } else {
      OrphanKeeps(popped, r);
    }
  }

  lemma {:induction false} CleanElsewhere(steps: seq<Dict>, i: nat, d': Dict)
    requires i < |steps|
    ensures (IsClean(steps[i]) && forall j :: j == i || IsCleanAt(steps, j)) <==> AllClean(steps)
  {
    if AllClean(steps) {
      assert IsCleanAt(steps, i);
    }
    if IsClean(steps[i]) && forall j :: j == i || IsCleanAt(steps, j) {
      assert IsCleanAt(steps, i);
    }
  }

  lemma {:induction false} PoppedIsValid(st: State, id: string)
    requires IsValid(st)
    ensures IsValid(st.(pending := st.pending - {id}))
  {
    var st' := st.(pending := st.pending - {id});
    forall x
      ensures IsPendingAt(st', x)
    {
      assert IsPendingAt(st, x);
    }
  }

  lemma {:induction false} OrphanKeeps(st: State, r: ResultArgs)
    requires IsValid(st)
    ensures var st' := AddStep(st, AddResult(OrphanStep(r.time), OrphanedResult(r)));
            IsValid(st') && (AllClean(st'.steps) <==> AllClean(st.steps) && AreGoodRefs(r.refs))
  {
    var n := |st.steps| + 1;
    var d := OrphanStep(r.time);
    OrphanStepIsSound(r.time, n);
    ResultIsSound(r, {});
    SoundWithResult(d[StepId := Int(n)], OrphanedResult(r), n);
    NumberedResult(d, OrphanedResult(r), n);
    StepAdded(st, AddResult(d, OrphanedResult(r)));
  }

  lemma {:induction false} NumberedResult(d: Dict, v: Value, n: nat)
    ensures AddResult(d, v)[StepId := Int(n)] == AddResult(d[StepId := Int(n)], v)
    ensures CallsOf(d[StepId := Int(n)]) == CallsOf(d)
    ensures IsClean(d[StepId := Int(n)]) <==> IsClean(d)
    ensures IsClean(AddResult(d[StepId := Int(n)], v)) <==> IsClean(AddResult(d, v))
  {
    var d' := d[StepId := Int(n)];
    assert ResultsOf(d') == ResultsOf(d) && CallsOf(d') == CallsOf(d);
    ResultAdded(d, v);
    ResultAdded(d', v);
  }

  lemma {:induction false} ToolResultsKeep(st: State, rs: seq<ResultArgs>)
    requires IsValid(st)
    ensures IsValid(ToolResults(st, rs))
    ensures AllClean(ToolResults(st, rs).steps) <==> AllClean(st.steps) && HaveGoodRefs(rs)
    decreases |rs|
  {
    if rs != [] {
      var most := rs[..|rs| - 1];
      ToolResultsKeep(st, most);
      ToolResultKeeps(ToolResults(st, most), rs[|rs| - 1]);
      GoodRefsSplit(rs);
    }
  }

  ghost predicate HaveGoodRefs(rs: seq<ResultArgs>) {
    forall i :: HasGoodRefsAt(rs, i)
  }

  predicate HasGoodRefsAt(rs: seq<ResultArgs>, i: int) {
    0 <= i < |rs| ==> AreGoodRefs(rs[i].refs)
  }

  lemma {:induction false} GoodRefsSplit(rs: seq<ResultArgs>)
    requires rs != []
    ensures HaveGoodRefs(rs) <==> HaveGoodRefs(rs[..|rs| - 1]) && AreGoodRefs(rs[|rs| - 1].refs)
  {
    var most := rs[..|rs| - 1];
    forall i
      ensures HasGoodRefsAt(rs, i) <==> if i == |most| then AreGoodRefs(rs[i].refs) else HasGoodRefsAt(most, i)
    {
    }
    assert HasGoodRefsAt(rs, |most|) <==> AreGoodRefs(rs[|most|].refs);
    if HaveGoodRefs(rs) {
      forall i
        ensures HasGoodRefsAt(most, i)
      {
        assert HasGoodRefsAt(rs, i);
      }
    }
  }

  // ----- agent steps -------------------------------------------------------------------------------

  /** Calls of a new last step may be registered as pending. */
  lemma {:induction false} Registered(st: State, ids: set<string>, n: nat)
    requires IsValid(st) && n == |st.steps| && IsAgentAt(st.steps, n) && ids <= CallIds(CallsOf(st.steps[n - 1]))
    ensures IsValid(st.(lastAgentStep := Some(n), pending := st.pending + AllAt(ids, n)))
  {
    var st' := st.(lastAgentStep := Some(n), pending := st.pending + AllAt(ids, n));
    forall id
      ensures IsPendingAt(st', id)
    {
      assert IsPendingAt(st, id);
    }
  }

  lemma {:induction false} NewAgentStep(st: State, d: Dict, ids: set<string>)
    requires var n := |st.steps| + 1;
             IsValid(st) && IsSound(d[StepId := Int(n)], n) && IsAgentStep(d) && ids == CallIds(CallsOf(d))
    requires CallsOf(d[StepId := Int(|st.steps| + 1)]) == CallsOf(d)
    ensures var n := |st.steps| + 1;
            var st' := AddStep(st, d).(lastAgentStep := Some(n), pending := st.pending + AllAt(ids, n));
            && IsValid(st') && IsAgentAt(st'.steps, n)
            && (AllClean(st'.steps) <==> AllClean(st.steps) && IsClean(d))
  {
    var n := |st.steps| + 1;
    StepAdded(st, d);
    NumberedFields(d, n, Source);
    Registered(AddStep(st, d), ids, n);
  }

  lemma {:induction false} AgentStepKeeps(st: State, s: Settings, a: AgentArgs)
    requires IsValid(st)
    ensures IsValid(AgentStep(st, s, a)) && IsAgentAt(AgentStep(st, s, a).steps, |st.steps| + 1)
    ensures AllClean(AgentStep(st, s, a).steps) <==> AllClean(st.steps) && HaveDistinctCallIds(a.calls)
  {
    AgentDictShape(s, a);
    CallValuesConform(a.calls);
    AgentIsSound(AgentDict(s, a), CallValues(a.calls), a.llmCalls, |st.steps| + 1);
    CallIdsOfCalls(a.calls);
    NewAgentStep(st, AgentDict(s, a), IdsOf(a.calls));
  }

  lemma {:induction false} DeterministicKeeps(st: State, s: Settings, a: AgentArgs, rs: seq<ResultArgs>)
    requires IsValid(st)
    ensures IsValid(Deterministic(st, s, a, rs))
    ensures AllClean(Deterministic(st, s, a, rs).steps) <==>
            AllClean(st.steps) && HaveDistinctCallIds(a.calls) && HaveGoodRefs(rs)
  {
    AgentStepKeeps(st, s, a.(llmCalls := 0));
    ToolResultsKeep(AgentStep(st, s, a.(llmCalls := 0)), rs);
  }

  // ----- delegations -------------------------------------------------------------------------------

  lemma {:induction false} BumpIsSound(d: Dict, n: nat)
    requires IsSound(d, n)
    ensures IsSound(Bump(d), n) && IsKept(d, Bump(d)) && (IsClean(Bump(d)) <==> IsClean(d))
  {
    assert DiffersOnlyIn(d, Bump(d), Extra);
    OneFieldChanged(d, Bump(d), Extra, n);
    ResultsFollow(d, Bump(d));
  }

  /** The reference to a child points somewhere. */
  predicate NamesItsChild(a: SubagentArgs) {
    a.path != "" || a.trajectoryId != ""
  }

  lemma {:induction false} DelegationIsGood(s: Settings, a: SubagentArgs)
    ensures HaveDistinctCallIds(DelegationCall(a).calls)
    ensures AreGoodRefs(DelegationResult(s, a).refs) <==> NamesItsChild(a)
  {
    var ref := DelegationRef(s, a);
    assert {TrajectoryPath, TrajectoryId, SessionId} <= REF_FIELDS;
    assert Get(ref, TrajectoryPath) == Str(a.path) && Get(ref, TrajectoryId) == TextOrNull(a.trajectoryId);
    assert Get(ref, SessionId) == TextOrNull(s.sessionId);
    assert ConformsRef(Obj(ref)) <==> NamesItsChild(a);
    assert DelegationResult(s, a).refs[0] == ref;
  }

  lemma {:induction false} GoodRefsOfOne(r: ResultArgs)
    ensures HaveGoodRefs([r]) <==> AreGoodRefs(r.refs)
  {
    assert HasGoodRefsAt([r], 0) <==> AreGoodRefs(r.refs);
  }

  /** A delegation keeps the invariant; the first one to a child has to name it. */
  lemma {:induction false} AddSubagentKeeps(st: State, s: Settings, a: SubagentArgs)
    requires IsValid(st)
    ensures IsValid(AddSubagent(st, s, a))
    ensures AllClean(AddSubagent(st, s, a).steps) <==>
            AllClean(st.steps) && (NamesItsChild(a) || FirstReferring(st.steps, a.path) < |st.steps|)
  {
    var i := FirstReferring(st.steps, a.path);
    if i < |st.steps| {
      assert IsSoundAt(st.steps, i);
      BumpIsSound(st.steps[i], i + 1);
      StepKept(st, i, Bump(st.steps[i]));
    } else {
      DelegationIsGood(s, a);
      GoodRefsOfOne(DelegationResult(s, a));
      DeterministicKeeps(st, s, DelegationCall(a), [DelegationResult(s, a)]);
    }
  }
}
