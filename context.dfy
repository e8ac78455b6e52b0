/** The typed context envelope of a tool call (dharahil/context.py): `DisplayHints` and
    `ToolContext`, their dataclass defaults, and their `to_dict` forms. */
module Context {
  import opened Wrappers
  import opened Json

  /** Rendering hints for approval UIs. `sections` is a list of free-form dicts. */
  datatype DisplayHints = DisplayHints(title: string, category: string, sections: seq<Json>) {

    /** `DisplayHints.to_dict`: three keys, each reading back as its field, `sections` as
        the same list. */
    function ToDict(): (d: Dict)
      ensures Keys(d) == ["title", "category", "sections"]
      ensures Get(d, "title") == Some(JStr(title))
      ensures Get(d, "category") == Some(JStr(category))
      ensures Get(d, "sections") == Some(JArr(sections))
    {
      var d := [("title", JStr(title)), ("category", JStr(category)), ("sections", JArr(sections))];
      GetFirst(d, 0);
      GetFirst(d, 1);
      GetFirst(d, 2);
      d
    }
  }

  /** `DisplayHints()` with every field defaulted. */
  function DefaultDisplayHints(): (h: DisplayHints)
    ensures h.title == "" && h.category == "" && h.sections == []
  {
    DisplayHints("", "", [])
  }

  datatype ToolContext = ToolContext(
    agentId: string,
    runId: string,
    stepId: string,
    riskLevel: string,
    tags: seq<string>,
    contextSummary: string,
    idempotencyKey: string,
    decisionUrl: string,
    metadata: Dict,
    display: Option<DisplayHints>)
  {
    /** `ToolContext.to_dict`. A `DisplayHints` instance is always truthy in Python, so
        "display" is null exactly when there are no hints. */
    function ToDict(): (d: Dict)
      ensures Keys(d) == ["agent_id", "run_id", "step_id", "risk_level", "tags",
                          "context_summary", "idempotency_key", "decision_url",
                          "metadata", "display"]
    {
      [ ("agent_id", JStr(agentId)),
        ("run_id", JStr(runId)),
        ("step_id", JStr(stepId)),
        ("risk_level", JStr(riskLevel)),
        ("tags", StrList(tags)),
        ("context_summary", JStr(contextSummary)),
        ("idempotency_key", JStr(idempotencyKey)),
        ("decision_url", JStr(decisionUrl)),
        ("metadata", JObj(metadata)),
        ("display", DisplayJson(display)) ]
    }
  }

  /** `self.display.to_dict() if self.display else None`. */
  function DisplayJson(display: Option<DisplayHints>): (j: Json)
    ensures j == JNull <==> display.None?
  {
    match display
    case Some(h) => JObj(h.ToDict())
    case None => JNull
  }

  /** `ToolContext(agent_id=..., run_id=...)` with every other field defaulted. */
  function NewToolContext(agentId: string, runId: string): (c: ToolContext)
    ensures c.agentId == agentId && c.runId == runId
    ensures c.stepId == "step" && c.riskLevel == "MEDIUM" && c.tags == []
    ensures c.contextSummary == "" && c.idempotencyKey == "" && c.decisionUrl == ""
    ensures c.metadata == [] && c.display == None
  {
    ToolContext(agentId, runId, "step", "MEDIUM", [], "", "", "", [], None)
  }

  /** Every key of `to_dict` reads back, through `dict.get`, as the field it came from;
      "display" is null without hints and the hints' own dict with them. */
  lemma ToDictReadsBack(c: ToolContext)
    ensures Get(c.ToDict(), "agent_id") == Some(JStr(c.agentId))
    ensures Get(c.ToDict(), "run_id") == Some(JStr(c.runId))
    ensures Get(c.ToDict(), "step_id") == Some(JStr(c.stepId))
    ensures Get(c.ToDict(), "risk_level") == Some(JStr(c.riskLevel))
    ensures Get(c.ToDict(), "tags") == Some(StrList(c.tags))
    ensures Get(c.ToDict(), "context_summary") == Some(JStr(c.contextSummary))
    ensures Get(c.ToDict(), "idempotency_key") == Some(JStr(c.idempotencyKey))
    ensures Get(c.ToDict(), "decision_url") == Some(JStr(c.decisionUrl))
    ensures Get(c.ToDict(), "metadata") == Some(JObj(c.metadata))
    ensures c.display.None? ==> Get(c.ToDict(), "display") == Some(JNull)
    ensures c.display.Some? ==> Get(c.ToDict(), "display") == Some(JObj(c.display.value.ToDict()))
  {
    IdsReadBack(c);
    LabelsReadBack(c);
    LinksReadBack(c);
  }

  lemma IdsReadBack(c: ToolContext)
    ensures Get(c.ToDict(), "agent_id") == Some(JStr(c.agentId))
    ensures Get(c.ToDict(), "run_id") == Some(JStr(c.runId))
    ensures Get(c.ToDict(), "step_id") == Some(JStr(c.stepId))
    ensures Get(c.ToDict(), "risk_level") == Some(JStr(c.riskLevel))
  {
    var d := c.ToDict();
    GetFirst(d, 0); GetFirst(d, 1); GetFirst(d, 2); GetFirst(d, 3);
  }

  lemma LabelsReadBack(c: ToolContext)
    ensures Get(c.ToDict(), "tags") == Some(StrList(c.tags))
    ensures Get(c.ToDict(), "context_summary") == Some(JStr(c.contextSummary))
    ensures Get(c.ToDict(), "idempotency_key") == Some(JStr(c.idempotencyKey))
  {
    var d := c.ToDict();
    GetFirst(d, 4); GetFirst(d, 5); GetFirst(d, 6);
  }

  lemma LinksReadBack(c: ToolContext)
    ensures Get(c.ToDict(), "decision_url") == Some(JStr(c.decisionUrl))
    ensures Get(c.ToDict(), "metadata") == Some(JObj(c.metadata))
    ensures Get(c.ToDict(), "display") == Some(DisplayJson(c.display))
  {
    var d := c.ToDict();
    GetFirst(d, 7); GetFirst(d, 8); GetFirst(d, 9);
  }
}
