/**
 * The extension route table: which HTTP method and path template select
 * which extension route. Templates are kept as the sequence of segments the
 * URL matcher reads them as; `Text` gives back the template string.
 */
module Routes {

  /** The two methods the table uses (`hyper::Method::GET` and `POST`). */
  datatype Method = Get | Post

  datatype Route =
    | GetContext
    | SetContext
    | XblAnonymousChildren
    | XblAnonymousByAttribute
    | InstallAddon
    | UninstallAddon
    | TakeFullScreenshot
    | Print

  /** A path template, built from the root: literal segments and `{name}` placeholders. */
  datatype Template = Root | Lit(parent: Template, text: string) | Var(parent: Template, name: string)

  /** The template as written in the table. */
  function Text(t: Template): string
  {
    match t
    case Root => ""
    case Lit(p, s) => Text(p) + ("/" + s)
    case Var(p, n) => Text(p) + ("/{" + n + "}")
  }

  /** The placeholder names, in order. */
  function Placeholders(t: Template): seq<string>
  {
    match t
    case Root => []
    case Lit(p, _) => Placeholders(p)
    case Var(p, n) => Placeholders(p) + [n]
  }

  /** "/session/{sessionId}/moz" */
  function Moz(): Template
  {
    Lit(Var(Lit(Root, "session"), "sessionId"), "moz")
  }

  function Xbl(): Template
  {
    Var(Lit(Moz(), "xbl"), "elementId")
  }

  datatype RouteEntry = RouteEntry(verb: Method, template: Template, route: Route)

  /** `extension_routes()`. */
  function ExtensionRoutes(): (table: seq<RouteEntry>)
    ensures |table| == 8
  {
    [
      RouteEntry(Get, Lit(Moz(), "context"), GetContext),
      RouteEntry(Post, Lit(Moz(), "context"), SetContext),
      RouteEntry(Post, Lit(Xbl(), "anonymous_children"), XblAnonymousChildren),
      RouteEntry(Post, Lit(Xbl(), "anonymous_by_attribute"), XblAnonymousByAttribute),
      RouteEntry(Post, Lit(Lit(Moz(), "addon"), "install"), InstallAddon),
      RouteEntry(Post, Lit(Lit(Moz(), "addon"), "uninstall"), UninstallAddon),
      RouteEntry(Get, Lit(Lit(Moz(), "screenshot"), "full"), TakeFullScreenshot),
      RouteEntry(Post, Lit(Moz(), "print"), Print)
    ]
  }

  lemma MozText()
    ensures Text(Moz()) == "/session/{sessionId}/moz"
  {
    assert Text(Lit(Root, "session")) == "/session";
    assert Text(Var(Lit(Root, "session"), "sessionId")) == "/session/{sessionId}";
  }

  lemma XblText()
    ensures Text(Xbl()) == "/session/{sessionId}/moz/xbl/{elementId}"
  {
    MozText();
    assert Text(Lit(Moz(), "xbl")) == "/session/{sessionId}/moz/xbl";
  }

  lemma ContextTexts()
    ensures Text(ExtensionRoutes()[0].template) == "/session/{sessionId}/moz/context"
    ensures Text(ExtensionRoutes()[1].template) == "/session/{sessionId}/moz/context"
    ensures Text(ExtensionRoutes()[7].template) == "/session/{sessionId}/moz/print"
  {
    MozText();
  }

  lemma XblChildrenText()
    ensures Text(ExtensionRoutes()[2].template) == "/session/{sessionId}/moz/xbl/{elementId}/anonymous_children"
  {
    XblText();
  }

  lemma XblAttributeText()
    ensures Text(ExtensionRoutes()[3].template) == "/session/{sessionId}/moz/xbl/{elementId}/anonymous_by_attribute"
  {
    XblText();
  }

  lemma AddonTexts()
    ensures Text(ExtensionRoutes()[4].template) == "/session/{sessionId}/moz/addon/install"
    ensures Text(ExtensionRoutes()[5].template) == "/session/{sessionId}/moz/addon/uninstall"
  {
    MozText();
    assert Text(Lit(Moz(), "addon")) == "/session/{sessionId}/moz/addon";
  }

  lemma ScreenshotText()
    ensures Text(ExtensionRoutes()[6].template) == "/session/{sessionId}/moz/screenshot/full"
  {
    MozText();
    assert Text(Lit(Moz(), "screenshot")) == "/session/{sessionId}/moz/screenshot";
  }

  /** The eight templates spell the strings of the source's table, in its order. */
  lemma TemplateTexts()
    ensures Texts(ExtensionRoutes()) == [
      "/session/{sessionId}/moz/context",
      "/session/{sessionId}/moz/context",
      "/session/{sessionId}/moz/xbl/{elementId}/anonymous_children",
      "/session/{sessionId}/moz/xbl/{elementId}/anonymous_by_attribute",
      "/session/{sessionId}/moz/addon/install",
      "/session/{sessionId}/moz/addon/uninstall",
      "/session/{sessionId}/moz/screenshot/full",
      "/session/{sessionId}/moz/print"]
  {
    ContextTexts();
    XblChildrenText();
    XblAttributeText();
    AddonTexts();
    ScreenshotText();
  }

  function Texts(t: seq<RouteEntry>): seq<string>
  {
    seq(|t|, i requires 0 <= i < |t| => Text(t[i].template))
  }

  function RoutesOf(t: seq<RouteEntry>): seq<Route>
  {
    seq(|t|, i requires 0 <= i < |t| => t[i].route)
  }

  /** Each route appears in exactly one entry. */
  lemma OneEntryPerRoute()
    ensures forall r: Route :: r in RoutesOf(ExtensionRoutes())
    ensures var t := ExtensionRoutes();
      forall i, j :: 0 <= i < j < |t| ==> t[i].route != t[j].route
  {
    var routes := RoutesOf(ExtensionRoutes());
    assert routes == [GetContext, SetContext, XblAnonymousChildren, XblAnonymousByAttribute,
                      InstallAddon, UninstallAddon, TakeFullScreenshot, Print];
    forall r: Route ensures r in routes {
      match r
      case GetContext => assert routes[0] == r;
      case SetContext => assert routes[1] == r;
      case XblAnonymousChildren => assert routes[2] == r;
      case XblAnonymousByAttribute => assert routes[3] == r;
      case InstallAddon => assert routes[4] == r;
      case UninstallAddon => assert routes[5] == r;
      case TakeFullScreenshot => assert routes[6] == r;
      case Print => assert routes[7] == r;
    }
  }

  /** No two entries share both method and template string. */
  lemma DistinctEndpoints()
    ensures var t := ExtensionRoutes();
      forall i, j :: 0 <= i < j < |t| ==> (t[i].verb, Text(t[i].template)) != (t[j].verb, Text(t[j].template))
  {
    var t := ExtensionRoutes();
    TemplateTexts();
    forall i, j | 0 <= i < j < |t| ensures (t[i].verb, Text(t[i].template)) != (t[j].verb, Text(t[j].template)) {
      assert Text(t[i].template) == Texts(t)[i] && Text(t[j].template) == Texts(t)[j];
    }
  }

  /**
   * The whole table as (method, template string, route) triples: which
   * string selects which route, in the source's order.
   */
  lemma TableTriples()
    ensures var t := ExtensionRoutes();
      seq(|t|, i requires 0 <= i < |t| => (t[i].verb, Text(t[i].template), t[i].route)) == [
        (Get, "/session/{sessionId}/moz/context", GetContext),
        (Post, "/session/{sessionId}/moz/context", SetContext),
        (Post, "/session/{sessionId}/moz/xbl/{elementId}/anonymous_children", XblAnonymousChildren),
        (Post, "/session/{sessionId}/moz/xbl/{elementId}/anonymous_by_attribute", XblAnonymousByAttribute),
        (Post, "/session/{sessionId}/moz/addon/install", InstallAddon),
        (Post, "/session/{sessionId}/moz/addon/uninstall", UninstallAddon),
        (Get, "/session/{sessionId}/moz/screenshot/full", TakeFullScreenshot),
        (Post, "/session/{sessionId}/moz/print", Print)]
  {
    var t := ExtensionRoutes();
    TemplateTexts();
    forall i | 0 <= i < |t| ensures Text(t[i].template) == Texts(t)[i] {
    }
  }

  /** A template segment as the URL matcher reads it: a literal, or a one-segment wildcard. */
  datatype Segment = SLit(text: string) | SVar

  function Segments(t: Template): seq<Segment>
  {
    match t
    case Root => []
    case Lit(p, s) => Segments(p) + [SLit(s)]
    case Var(p, _) => Segments(p) + [SVar]
  }

  /** A request path, split at its slashes, matches a template segment by segment. */
  predicate Matches(path: seq<string>, segs: seq<Segment>)
  {
    |path| == |segs| && forall k :: 0 <= k < |path| ==> segs[k].SVar? || segs[k] == SLit(path[k])
  }

  /** The templates agree wherever both are literal, so a path matching both could exist. */
  predicate Overlap(a: seq<Segment>, b: seq<Segment>)
  {
    |a| == |b| && forall k :: 0 <= k < |a| ==> a[k].SVar? || b[k].SVar? || a[k] == b[k]
  }

  /** No two entries with the same method have templates that some request path matches both of. */
  lemma NoOverlap()
    ensures var t := ExtensionRoutes();
      forall i, j :: 0 <= i < j < |t| && t[i].verb == t[j].verb ==>
        !Overlap(Segments(t[i].template), Segments(t[j].template))
  {
    var t := ExtensionRoutes();
    forall i, j | 0 <= i < j < |t| && t[i].verb == t[j].verb
      ensures !Overlap(Segments(t[i].template), Segments(t[j].template))
    {
      var a, b := Segments(t[i].template), Segments(t[j].template);
      if |a| == |b| {
        assert a[|a| - 1] != b[|b| - 1];
      }
    }
  }

  /** A request's method and path select at most one entry, so matching is unambiguous. */
  lemma UnambiguousMatch(verb: Method, path: seq<string>)
    ensures var t := ExtensionRoutes();
      forall i, j :: 0 <= i < j < |t| && t[i].verb == verb && t[j].verb == verb ==>
        !(Matches(path, Segments(t[i].template)) && Matches(path, Segments(t[j].template)))
  {
    NoOverlap();
  }

  /** Only the context query and the full screenshot are read with GET. */
  lemma GetRoutes()
    ensures var t := ExtensionRoutes();
      forall i :: 0 <= i < |t| ==> (t[i].verb == Get <==> t[i].route in {GetContext, TakeFullScreenshot})
  {
  }

  /** Every template names the session; only the two XBL templates also name an element. */
  lemma ElementPlaceholders()
    ensures var t := ExtensionRoutes();
      forall i :: 0 <= i < |t| ==>
        Placeholders(t[i].template) ==
          if t[i].route in {XblAnonymousChildren, XblAnonymousByAttribute}
          then ["sessionId", "elementId"] else ["sessionId"]
  {
  }
}
