/** The anonymous route registry: the set of request paths exempt from
    authentication, built once from configuration and queried by exact match. */
module AnonymousRoutes {
  import opened Wrappers

  /** The `AnonymousRoutes` configuration section; a missing list is `None`. */
  datatype AnonymousRoutesOptions = AnonymousRoutesOptions(routes: Option<seq<string>>)

  /** The validator holds an immutable set of paths. */
  datatype AnonymousRouteValidator = AnonymousRouteValidator(routes: set<string>) {

    /** Exact, case-sensitive string membership: no trailing-slash or case folding. */
    predicate HasAccess(path: string) {
      path in routes
    }
  }

  /** The list the constructor enumerates: a missing list reads as empty. */
  function ConfiguredList(options: AnonymousRoutesOptions): seq<string> {
    match options.routes
    case Some(list) => list
    case None => []
  }

  /** The set of configured paths, as a reference for the constructor. */
  function ConfiguredRoutes(options: AnonymousRoutesOptions): (s: set<string>)
    ensures options.routes.None? ==> s == {}
    ensures forall p :: p in s <==> options.routes.Some? && p in options.routes.value
  {
    set p | p in ConfiguredList(options)
  }

  /** The constructor: enumerates the configured list into a hash set. */
  method NewValidator(options: AnonymousRoutesOptions) returns (v: AnonymousRouteValidator)
    ensures forall p :: v.HasAccess(p) <==> options.routes.Some? && p in options.routes.value
    ensures v.routes == ConfiguredRoutes(options)
  {
    var source := ConfiguredList(options);
    var routes: set<string> := {};
    var i := 0;
    while i < |source|
      invariant 0 <= i <= |source|
      invariant forall p :: p in routes <==> p in source[..i]
    {
      assert source[..i + 1] == source[..i] + [source[i]];
      routes := routes + {source[i]};
      i := i + 1;
    }
    assert source[..i] == source;
    v := AnonymousRouteValidator(routes);
  }

  /** With no list configured, no path is anonymous. */
  lemma MissingListGrantsNothing(path: string)
    ensures !AnonymousRouteValidator(ConfiguredRoutes(AnonymousRoutesOptions(None))).HasAccess(path)
  {
  }

  /** Two lists with the same members build validators that answer alike for
      every path, however often or in what order the paths are repeated. */
  lemma DuplicatesDoNotMatter(xs: seq<string>, ys: seq<string>)
    requires forall p :: p in xs <==> p in ys
    ensures ConfiguredRoutes(AnonymousRoutesOptions(Some(xs))) == ConfiguredRoutes(AnonymousRoutesOptions(Some(ys)))
  {
  }

  /** Matching is exact: neither letter case nor a trailing slash is normalised. */
  lemma ExactMatch()
    ensures var v := AnonymousRouteValidator(ConfiguredRoutes(AnonymousRoutesOptions(Some(["/health"]))));
            v.HasAccess("/health") && !v.HasAccess("/Health") && !v.HasAccess("/health/")
  {
  }
}
