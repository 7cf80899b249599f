/** Which parameters of a tool call are queries, and what happens to them. */
module ToolParameters {
  import opened Common
  import opened QueryTokens
  import Prom = PromPasses
  import PromChunks
  import PromRecency
  import LogQL
  import TraceQL
  import TraceScope

  datatype Value = Query(text: Tokens) | Opaque(value: string)

  type Params = map<string, Value>

  datatype Language = PromQL | LogQL | TraceQL | Selector | NoQuery

  function LanguageOf(tool: string): Language {
    if tool in {"query_prometheus", "query_prometheus_histogram"} then PromQL
    else if tool in {"query_loki_logs", "query_loki_stats"} then LogQL
    else if tool in {"tempo_traceql-search", "traceql_search", "search_tempo_traces"} then TraceQL
    else if tool in {"list_prometheus_label_values", "list_loki_label_values"} then Selector
    else NoQuery
  }

  function Fields(l: Language): set<string> {
    match l
    case PromQL => {"query", "expr"}
    case LogQL => {"query", "logql"}
    case TraceQL => {"query", "traceql", "q"}
    case _ => {}
  }

  /** The tenant, and the deployment's own origin when it has one. */
  function QueryScope(tenant: string, origin: string): Scope {
    [Binding("tenant_id", tenant)] + if origin == "" then [] else [Binding("origin", origin)]
  }

  function RewriteText(l: Language, text: Tokens, scope: Scope): Tokens {
    match l
    case PromQL => Prom.RewriteQuery(text, scope)
    case LogQL => LogQL.InjectScope(text, scope)
    case TraceQL => TraceQL.InjectScope(text, scope)
    case _ => text
  }

  function RewriteParameters(tool: string, params: Params, tenant: string, origin: string): Params {
    var scope, l := QueryScope(tenant, origin), LanguageOf(tool);
    if l.Selector? then
      params["match" := Query(Cons(LBrace, Prom.EmitScope(scope, Cons(RBrace, Nil))))]
    else
      map k | k in params :: if k in Fields(l) && params[k].Query? then Query(RewriteText(l, params[k].text, scope)) else params[k]
  }

  /** The queries the rewriting claims are about. */
  ghost predicate InFragment(l: Language, labels: set<string>, text: Tokens) {
    match l
    case PromQL => exists ps :: PromChunks.Linked(ps) && text == PromChunks.Print(ps)
    case LogQL => exists p: LogQL.Pipeline :: LogQL.WellFormed(labels, p) && p.selector.Some? && text == LogQL.Print(p)
    case TraceQL => exists q: TraceQL.Query :: TraceQL.WellFormed(labels, q) && text == TraceQL.Print(q)
    case _ => true
  }

  lemma ScopeLabels(tenant: string, origin: string)
    requires tenant != ""
    ensures var s := QueryScope(tenant, origin);
      && Effective(s) == s && Labels(s) == (if origin == "" then {"tenant_id"} else {"tenant_id", "origin"})
      && Prom.LabelNames(s)
  {
    var s := QueryScope(tenant, origin);
    var rest := s[1..];
    assert s[0] == Binding("tenant_id", tenant) && s[0] in s;
    assert Effective(s) == [s[0]] + Effective(rest);
    if origin == "" {
      assert rest == [];
    } else {
      assert rest == [Binding("origin", origin)] && rest[1..] == [] && s[1] in s;
      assert Effective(rest) == [rest[0]] + Effective(rest[1..]);
    }
  }

  lemma TextRewrittenTwice(l: Language, text: Tokens, t1: string, t2: string, origin: string)
    requires t1 != "" && t2 != "" && PromRecency.PlainScope(QueryScope(t2, origin))
    requires InFragment(l, Labels(QueryScope(t2, origin)), text)
    ensures var s1, s2 := QueryScope(t1, origin), QueryScope(t2, origin);
      RewriteText(l, RewriteText(l, text, s1), s2) == RewriteText(l, text, s2)
  {
    var s1, s2 := QueryScope(t1, origin), QueryScope(t2, origin);
    ScopeLabels(t1, origin);
    ScopeLabels(t2, origin);
    match l
    case PromQL =>
      var ps :| PromChunks.Linked(ps) && text == PromChunks.Print(ps);
      PromRecency.LastScopeWinsWrapped(s1, s2, ps);
    case LogQL =>
      var p: LogQL.Pipeline :| LogQL.WellFormed(Labels(s2), p) && p.selector.Some? && text == LogQL.Print(p);
      LogQL.LastScopeWins(s1, s2, p);
    case TraceQL =>
      var q: TraceQL.Query :| TraceQL.WellFormed(Labels(s2), q) && text == TraceQL.Print(q);
      TraceScope.LastScopeWins(s1, s2, q);
    case _ =>
  }

  /** A call rewritten for one tenant and then for another is the call rewritten for
      the other alone, whichever tool it goes to; what is not a query stays as it is. */
  lemma LastTenantWins(tool: string, params: Params, t1: string, t2: string, origin: string)
    requires t1 != "" && t2 != "" && PromRecency.PlainScope(QueryScope(t2, origin))
    requires forall k :: k in params && k in Fields(LanguageOf(tool)) && params[k].Query? ==>
      InFragment(LanguageOf(tool), Labels(QueryScope(t2, origin)), params[k].text)
    ensures RewriteParameters(tool, RewriteParameters(tool, params, t1, origin), t2, origin) == RewriteParameters(tool, params, t2, origin)
    ensures forall k :: k in params && k !in Fields(LanguageOf(tool)) && k != "match" ==>
      k in RewriteParameters(tool, params, t1, origin) && RewriteParameters(tool, params, t1, origin)[k] == params[k]
  {
    var l := LanguageOf(tool);
    forall k | k in params && k in Fields(l) && params[k].Query?
      ensures var text := params[k].text;
        RewriteText(l, RewriteText(l, text, QueryScope(t1, origin)), QueryScope(t2, origin)) == RewriteText(l, text, QueryScope(t2, origin))
    {
      TextRewrittenTwice(l, params[k].text, t1, t2, origin);
    }
  }
}
