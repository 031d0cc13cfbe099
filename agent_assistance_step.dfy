/**
 * Step 10, agent assistance: the "using an agent" checkbox, which clears the four
 * agent fields when unticked, and the single-field update of those fields.
 */
module AgentAssistanceStep {
  import opened Wrappers
  import opened VisaTypes

  /** The four optional agent members of `AgentAssistance`, the keys `handleChange` is called with. */
  datatype AgentField = AgentName | AgentAddress | AgentPhone | AgentEmail

  /** `data[field]`; `None` is `undefined`. */
  function Get(d: AgentAssistance, f: AgentField): Option<string> {
    match f
    case AgentName => d.agentName
    case AgentAddress => d.agentAddress
    case AgentPhone => d.agentPhone
    case AgentEmail => d.agentEmail
  }

  /** Two records that agree on the flag and on every agent field are the same record. */
  lemma {:induction false} Extensionality(a: AgentAssistance, b: AgentAssistance)
    requires a.usingAgent == b.usingAgent
    requires forall f :: Get(a, f) == Get(b, f)
    ensures a == b
  {
    assert Get(a, AgentName) == Get(b, AgentName);
    assert Get(a, AgentAddress) == Get(b, AgentAddress);
    assert Get(a, AgentPhone) == Get(b, AgentPhone);
    assert Get(a, AgentEmail) == Get(b, AgentEmail);
  }

  /** `handleUsingAgentChange(checked)`: ticking keeps the agent fields, unticking sets all four to `undefined`. */
  function HandleUsingAgentChange(d: AgentAssistance, checked: bool): (r: AgentAssistance)
    ensures r.usingAgent == checked
    ensures checked ==> forall f :: Get(r, f) == Get(d, f)
    ensures !checked ==> forall f :: Get(r, f) == None
  {
    d.(usingAgent := checked,
       agentName := if checked then d.agentName else None,
       agentAddress := if checked then d.agentAddress else None,
       agentPhone := if checked then d.agentPhone else None,
       agentEmail := if checked then d.agentEmail else None)
  }

  /** Unticking and ticking again does not bring the agent back: all four fields stay `undefined`. */
  lemma UntickThenTickClears(d: AgentAssistance)
    ensures HandleUsingAgentChange(HandleUsingAgentChange(d, false), true) == AgentAssistance(true, None, None, None, None)
  {
  }

  /** `handleChange(field, value)`: `{ ...data, [field]: value }`. */
  function HandleChange(d: AgentAssistance, f: AgentField, value: string): (r: AgentAssistance)
    ensures r.usingAgent == d.usingAgent
    ensures Get(r, f) == Some(value)
    ensures forall g :: g != f ==> Get(r, g) == Get(d, g)
  {
    match f
    case AgentName => d.(agentName := Some(value))
    case AgentAddress => d.(agentAddress := Some(value))
    case AgentPhone => d.(agentPhone := Some(value))
    case AgentEmail => d.(agentEmail := Some(value))
  }

  /** The update is determined by its frame. */
  lemma HandleChangeUnique(d: AgentAssistance, f: AgentField, value: string, r: AgentAssistance)
    requires r.usingAgent == d.usingAgent
    requires Get(r, f) == Some(value) && forall g :: g != f ==> Get(r, g) == Get(d, g)
    ensures r == HandleChange(d, f, value)
  {
    Extensionality(r, HandleChange(d, f, value));
  }

  /** Whether the step renders the agent inputs. */
  predicate Relevant(d: AgentAssistance, f: AgentField) {
    d.usingAgent
  }

  /** No agent detail is held while the box is unticked. */
  predicate NoHiddenAgent(d: AgentAssistance) {
    forall f :: !Relevant(d, f) ==> Get(d, f) == None
  }

  /**
   * The checkbox always leaves no hidden agent detail, and editing a field (possible
   * only while the inputs are shown) keeps it so.
   */
  lemma HiddenAgentStaysCleared(d: AgentAssistance, checked: bool, f: AgentField, value: string)
    ensures NoHiddenAgent(HandleUsingAgentChange(d, checked))
    ensures NoHiddenAgent(d) && Relevant(d, f) ==> NoHiddenAgent(HandleChange(d, f, value))
  {
  }
}
