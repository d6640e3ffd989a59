/** What the analysis of one script delivers (pkg/jsanalysis/analyzer.go). */
module Analyses {
  import opened FlowSyntax

  datatype Kind = Code | StringLit | TemplateLit | Comment | Regexp | Unknown

  datatype Span = Span(start: int, end: int, kind: Kind, quote: string)

  datatype Analysis = Analysis(spans: seq<Span>, calls: seq<Span>, error: string, flows: seq<Flow>, flowError: string)

  datatype SourceMode = ScriptMode | HandlerMode | ModuleMode
}
