/** How read tools are named to the model, and how a name finds its tool again
    (reasoner.go: tools). */
module ToolNames {
  import opened Common
  import opened Ports

  const SUBMIT_PLAN := "submit_plan"
  const SEPARATOR := "__"

  function OfferName(upstream: string, tool: string): string { upstream + SEPARATOR + tool }

  function NameOf(t: ToolSpec): string { OfferName(t.upstream, t.name) }

  function Lookup(tools: seq<ToolSpec>): map<string, ToolSpec> {
    if tools == [] then map[] else
    var last := tools[|tools| - 1];
    Lookup(tools[..|tools| - 1])[NameOf(last) := last]
  }

  /** An input schema: an upstream's own, as opaque text; the default for a tool published without one; or
      that of submit_plan, whose three fields are all required and which admits no other. */
  datatype Schema = Published(text: string) | AnyObject | PlanSchema(actions: seq<string>, minHeads: int, maxHeads: int)

  datatype ApiTool = ApiTool(name: string, description: string, schema: Schema)

  function Offer(t: ToolSpec): ApiTool {
    ApiTool(NameOf(t), t.description, match t.schema case Some(text) => Published(text) case None => AnyObject)
  }

  function SubmitTool(actions: seq<string>): ApiTool {
    ApiTool(SUBMIT_PLAN, "Submit your final recommendation. This is the ONLY way to answer.", PlanSchema(actions, 0, 50))
  }

  function Catalogue(tools: seq<ToolSpec>, actions: seq<string>): seq<ApiTool> {
    seq(|tools|, i requires 0 <= i < |tools| => Offer(tools[i])) + [SubmitTool(actions)]
  }

  /** The catalogue offered to the model: every read tool under its name, with its own description and
      schema, then submit_plan. */
  method Tools(tools: seq<ToolSpec>, actions: seq<string>) returns (offered: seq<ApiTool>,
               lookup: map<string, ToolSpec>)
    ensures lookup == Lookup(tools)
    ensures offered == Catalogue(tools, actions)
  {
    offered, lookup := [], map[];
    for i := 0 to |tools|
      invariant lookup == Lookup(tools[..i])
      invariant |offered| == i && forall j :: 0 <= j < i ==> offered[j] == Offer(tools[j])
    {
      assert tools[..i + 1][..i] == tools[..i];
      lookup := lookup[NameOf(tools[i]) := tools[i]];
      var schema := AnyObject;
      if tools[i].schema.Some? { schema := Published(tools[i].schema.value); }
      offered := offered + [ApiTool(NameOf(tools[i]), tools[i].description, schema)];
    }
    assert tools[..|tools|] == tools;
    offered := offered + [SubmitTool(actions)];
  }

  /** No read tool, whatever its names, can pass for submit_plan. */
  lemma SubmitPlanIsNeverOffered(upstream: string, tool: string)
    ensures OfferName(upstream, tool) != SUBMIT_PLAN
  {
    var s, k := OfferName(upstream, tool), |upstream|;
    assert s[k] == '_' && s[k + 1] == '_';
    assert forall i :: 0 <= i < |SUBMIT_PLAN| - 1 ==> !(SUBMIT_PLAN[i] == '_' && SUBMIT_PLAN[i + 1] == '_');
  }

  /** Two upstreams can clash exactly when one, with the separator, starts the other: the condition a
      caller can check on the upstream names before wiring them. */
  lemma UpstreamsClashExactly(u1: string, u2: string)
    ensures (exists t1, t2 :: OfferName(u1, t1) == OfferName(u2, t2)) <==>
            u1 + SEPARATOR <= u2 + SEPARATOR || u2 + SEPARATOR <= u1 + SEPARATOR
  {
    var a, b := u1 + SEPARATOR, u2 + SEPARATOR;
    if t1, t2 :| OfferName(u1, t1) == OfferName(u2, t2) {
      assert a <= OfferName(u1, t1) && b <= OfferName(u1, t1);
    }
    if a <= b {
      assert OfferName(u1, b[|a|..]) == OfferName(u2, "");
    } else if b <= a {
      assert OfferName(u1, "") == OfferName(u2, a[|b|..]);
    }
  }

  /** Names of upstreams that end in an underscore do clash. */
  lemma ClashWithUnderscores()
    ensures OfferName("wes", "_list") == OfferName("wes_", "list")
  {
    assert OfferName("wes", "_list") == "wes" + "__" + "_list" == "wes___list";
    assert OfferName("wes_", "list") == "wes_" + "__" + "list" == "wes___list";
  }

  lemma FirstUnderscore(u: string, t: string)
    requires '_' !in u
    ensures var s := OfferName(u, t); s[|u|] == '_' && forall i :: 0 <= i < |u| ==> s[i] != '_'
  {
    var s := OfferName(u, t);
    forall i | 0 <= i < |u| ensures s[i] != '_' { assert s[i] == u[i] && u[i] in u; }
  }

  /** Without underscores in the upstream names, as with all five wired ones, a name decodes uniquely. */
  lemma NamesAreInjective(u1: string, t1: string, u2: string, t2: string)
    requires '_' !in u1 && '_' !in u2
    requires OfferName(u1, t1) == OfferName(u2, t2)
    ensures u1 == u2 && t1 == t2
  {
    var s := OfferName(u1, t1);
    FirstUnderscore(u1, t1);
    FirstUnderscore(u2, t2);
    assert s[..|u1|] == u1 && s[..|u2|] == u2;
    assert s[|u1| + 2..] == t1 && s[|u2| + 2..] == t2;
  }

  /** Whatever the catalogue, a name leads to a tool of the catalogue that carries that name. */
  lemma {:induction false} LookupStaysInCatalogue(tools: seq<ToolSpec>, name: string)
    ensures name in Lookup(tools) <==> exists t :: t in tools && NameOf(t) == name
    ensures name in Lookup(tools) ==> Lookup(tools)[name] in tools && NameOf(Lookup(tools)[name]) == name
  {
    if tools != [] {
      var front, last := tools[..|tools| - 1], tools[|tools| - 1];
      assert tools == front + [last];
      LookupStaysInCatalogue(front, name);
    }
  }

  /** The model may use exactly the names the protocol knows: those the lookup resolves, and submit_plan. */
  lemma OfferedNamesAreKnown(tools: seq<ToolSpec>, actions: seq<string>, name: string)
    ensures (exists t :: t in Catalogue(tools, actions) && t.name == name) <==> name in Lookup(tools) || name == SUBMIT_PLAN
  {
    LookupStaysInCatalogue(tools, name);
    var offered := Catalogue(tools, actions);
    assert offered[|tools|] == SubmitTool(actions);
    if t :| t in tools && NameOf(t) == name {
      var i :| 0 <= i < |tools| && tools[i] == t;
      assert offered[i] == Offer(t);
    }
    if t :| t in offered && t.name == name && name != SUBMIT_PLAN {
      var i :| 0 <= i < |offered| && offered[i] == t;
      assert tools[i] in tools && NameOf(tools[i]) == name;
    }
  }

  /** With underscore-free upstreams and no tool listed twice under different descriptions, every
      offered name leads back to exactly its own spec. */
  lemma LookupFindsItsOwn(tools: seq<ToolSpec>, t: ToolSpec)
    requires t in tools
    requires forall s :: s in tools ==> '_' !in s.upstream
    requires forall r, s :: r in tools && s in tools && r.upstream == s.upstream && r.name == s.name ==> r == s
    ensures NameOf(t) in Lookup(tools) && Lookup(tools)[NameOf(t)] == t
  {
    LookupStaysInCatalogue(tools, NameOf(t));
    var s := Lookup(tools)[NameOf(t)];
    NamesAreInjective(s.upstream, s.name, t.upstream, t.name);
  }

  /** What the model is offered, entry by entry. */
  lemma CatalogueExactly(tools: seq<ToolSpec>, actions: seq<string>, i: nat)
    requires i <= |tools|
    ensures |Catalogue(tools, actions)| == |tools| + 1
    ensures var offered := Catalogue(tools, actions)[i];
            if i < |tools| then
              && offered.name == tools[i].upstream + "__" + tools[i].name
              && offered.description == tools[i].description
              && (tools[i].schema.Some? ==> offered.schema == Published(tools[i].schema.value))
              && (tools[i].schema.None? ==> offered.schema == AnyObject)
            else offered.name == "submit_plan" && offered.schema == PlanSchema(actions, 0, 50)
  {
  }

  /** When two tools share a name, the later one is meant. */
  lemma {:induction false} LookupTakesTheLast(tools: seq<ToolSpec>, k: nat)
    requires k < |tools| && forall i :: k < i < |tools| ==> NameOf(tools[i]) != NameOf(tools[k])
    ensures NameOf(tools[k]) in Lookup(tools) && Lookup(tools)[NameOf(tools[k])] == tools[k]
  {
    if k < |tools| - 1 { LookupTakesTheLast(tools[..|tools| - 1], k); }
  }
}
