/**
 The component-layer stage (internal/components/types/stage_managed.go):
 a typed stage with a data property, a control channel, a transition
 registry mapping a source stage to its single target, and named event
 validators. Most of its interface panics as unimplemented; the model
 covers the parts that have bodies.
 */
module ManagedStage {
  import opened Wrappers

  /** The result an event validator reports: validity and a message. */
  datatype Verdict = Verdict(valid: bool, message: string)

  datatype Stage<T> = Stage(
    name: string,
    description: string,
    kind: string,
    data: Option<T>,
    hasChannelCtl: bool,
    events: map<string, Verdict>,
    transitions: map<string, string>,
    hasPool: bool,
    meta: map<string, string>,
    tags: seq<string>)

  /**
   `newStage(name, stageType, data, logger)`: nil when the name or the type is
   empty. A nil `data` is replaced by a pointer to the zero value `zero`.
   */
  function NewStage<T>(name: string, kind: string, data: Option<T>, zero: T): (r: Option<Stage<T>>)
    ensures r.None? <==> name == "" || kind == ""
    ensures r.Some? ==> r.value.name == name && r.value.kind == kind
    ensures r.Some? ==> r.value.data == Some(data.GetOr(zero))
    ensures r.Some? ==> r.value.hasChannelCtl && !r.value.hasPool
    ensures r.Some? ==> r.value.events == map[] && r.value.transitions == map[]
    ensures r.Some? ==> r.value.meta == map[] && r.value.tags == []
  {
    if name == "" || kind == "" then None
    else Some(Stage(name, "", kind, Some(data.GetOr(zero)), true, map[], map[], false, map[], []))
  }

  /** `GetType`: the Type field, or "" for a nil stage. */
  function GetType<T>(st: Option<Stage<T>>): (r: string)
    ensures st.Some? ==> r == st.value.kind
    ensures st.None? ==> r == ""
  {
    if st.None? then "" else st.value.kind
  }

  /** `GetStageType`: the same field as `GetType`, read through a second accessor. */
  function GetStageType<T>(st: Option<Stage<T>>): (r: string)
    ensures st.Some? ==> r == st.value.kind
    ensures st.None? ==> r == ""
  {
    match st
    case None => ""
    case Some(s) => s.kind
  }

  /** `RegisterTransition(from, to)`: records `from -> to`, replacing an earlier target, and returns nil. */
  function RegisterTransition<T>(s: Stage<T>, from: string, to: string): (r: (Outcome, Stage<T>))
    ensures r.0 == Pass
    ensures from in r.1.transitions && r.1.transitions[from] == to
    ensures forall k :: k != from ==> (k in r.1.transitions <==> k in s.transitions)
    ensures forall k :: k != from && k in s.transitions ==> r.1.transitions[k] == s.transitions[k]
    ensures r.1.(transitions := s.transitions) == s
  {
    (Pass, s.(transitions := s.transitions[from := to]))
  }

  /** `Initialize`: checks data, then the control channel, then the worker pool. */
  function Initialize<T>(s: Stage<T>): (r: Outcome)
    ensures r == Pass <==> s.data.Some? && s.hasChannelCtl && s.hasPool
    ensures s.data.None? ==> r == Fail("data is nil")
    ensures s.data.Some? && !s.hasChannelCtl ==> r == Fail("channelCtl is nil")
    ensures s.data.Some? && s.hasChannelCtl && !s.hasPool ==> r == Fail("workerPool is nil")
  {
    if s.data.None? then Fail("data is nil")
    else if !s.hasChannelCtl then Fail("channelCtl is nil")
    else if !s.hasPool then Fail("workerPool is nil")
    else Pass
  }

  /**
   `getDefaultEventMap`: the stage's events are reset, then assigned one by
   one in program order; "ctl" is assigned eight times and keeps the last.
   */
  function DefaultEventMap<T>(s: Stage<T>): (r: (Stage<T>, map<string, Verdict>))
    ensures r.1.Keys == {"onStart", "onStop", "onComplete", "onError", "ctl"}
    ensures r.0.events == r.1
    ensures r.1["ctl"] == Verdict(true, "Retomada acionada")
    ensures r.1["onError"] == Verdict(false, "Erro identificado")
    ensures forall k :: k in r.1 && k != "onError" ==> r.1[k].valid
    ensures r.0.(events := s.events) == s
  {
    var m := map[]
      ["onStart" := Verdict(true, "Stage iniciado corretamente")]
      ["onStop" := Verdict(true, "Stage encerrado corretamente")]
      ["onComplete" := Verdict(true, "Stage completo corretamente")]
      ["onError" := Verdict(false, "Erro identificado")]
      ["ctl" := Verdict(true, "Escalonamento automático acionado")]
      ["ctl" := Verdict(true, "Pool de trabalhadores acionado")]
      ["ctl" := Verdict(true, "Meta dados acionados")]
      ["ctl" := Verdict(true, "Tags acionadas")]
      ["ctl" := Verdict(true, "Canal de controle acionado")]
      ["ctl" := Verdict(true, "Contagem de trabalhadores acionada")]
      ["ctl" := Verdict(true, "Pausa acionada")]
      ["ctl" := Verdict(true, "Retomada acionada")];
    (s.(events := m), m)
  }

  /** The two type accessors agree on every stage. */
  lemma TypeAccessorsAgree<T>(st: Option<Stage<T>>)
    ensures GetType(st) == GetStageType(st)
  {
  }

  /** A freshly built stage never initializes: `newStage` leaves the worker pool unset. */
  lemma FreshStageFailsInitialize<T>(name: string, kind: string, data: Option<T>, zero: T)
    requires name != "" && kind != ""
    ensures NewStage(name, kind, data, zero).Some?
    ensures Initialize(NewStage(name, kind, data, zero).value) == Fail("workerPool is nil")
  {
  }

  /** Registering a second target for the same source replaces the first. */
  lemma LaterTransitionWins<T>(s: Stage<T>, from: string, to1: string, to2: string)
    ensures RegisterTransition(RegisterTransition(s, from, to1).1, from, to2).1
         == RegisterTransition(s, from, to2).1
  {
  }
}
