/** The ImageEngine directive set (`IEDirectives`) as far as the component reads it. */
module ImageDirectives {
  import opened JsValues

  /** The keys the component reads (`fit`, `width`, `height`, `no_optimization`) and every
      other transformation directive, which is only copied through. */
  datatype Directives = Directives(
    fit: Option<string>,
    width: Option<int>,
    height: Option<int>,
    noOptimization: bool,
    others: map<string, string>)

  /** The `{}` the `directives` input starts with. */
  const NoDirectives := Directives(None, None, None, false, map[])
}
