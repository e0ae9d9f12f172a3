/**
 * The tool dispatcher (Frontend/services/toolExecutor.ts): a fixed catalog of
 * six browser-navigation tools advertised to the remote model, a URL
 * normalisation rule, and a dispatcher that maps a tool name and its
 * arguments to one navigation effect and a `{success}` result.
 *
 * The browser's `window.location.href = ...` / `window.open(...)` side
 * effect is returned as a `Navigation` value. `encodeURIComponent` is a
 * browser builtin and is taken as the parameter `encodeComponent`.
 */
module ToolExecutor {

  /** One property of a declaration's JSON-schema parameter object. */
  datatype Property = Property(name: string, propertyType: string)

  /** One function declaration of the catalog sent to the remote model. */
  datatype ToolDeclaration = ToolDeclaration(
    name: string,
    description: string,
    properties: seq<Property>,
    required: seq<string>)

  /** The declaration of a tool that takes one required string argument. */
  function OneStringParameter(name: string, description: string, param: string): ToolDeclaration
  {
    ToolDeclaration(name, description, [Property(param, "string")], [param])
  }

  /** `toolDeclarations`: the catalog, in the order the source lists it. */
  const ToolDeclarations: seq<ToolDeclaration> := [
    OneStringParameter("openUrl", "Open a website in the current tab", "url"),
    OneStringParameter("openUrlNewTab", "Open a website in a new tab", "url"),
    OneStringParameter("searchGoogle", "Search something on Google", "query"),
    OneStringParameter("searchYouTube", "Search videos on YouTube", "query"),
    OneStringParameter("searchAmazon", "Search a product on Amazon", "query"),
    OneStringParameter("searchFlipkart", "Search a product on Flipkart", "query")
  ]

  /** The tool names the catalog declares. */
  function DeclaredNames(): set<string>
  {
    set d | d in ToolDeclarations :: d.name
  }

  /** The catalog declares exactly the six names the dispatcher switches on. */
  lemma DeclaredNamesAre()
    ensures DeclaredNames() ==
      {"openUrl", "openUrlNewTab", "searchGoogle", "searchYouTube", "searchAmazon", "searchFlipkart"}
  {
    var want := {"openUrl", "openUrlNewTab", "searchGoogle", "searchYouTube", "searchAmazon", "searchFlipkart"};
    forall i | 0 <= i < |ToolDeclarations| ensures ToolDeclarations[i].name in DeclaredNames() {
      assert ToolDeclarations[i] in ToolDeclarations;
    }
    assert ToolDeclarations[0].name == "openUrl" && ToolDeclarations[1].name == "openUrlNewTab";
    assert ToolDeclarations[2].name == "searchGoogle" && ToolDeclarations[3].name == "searchYouTube";
    assert ToolDeclarations[4].name == "searchAmazon" && ToolDeclarations[5].name == "searchFlipkart";
    assert want <= DeclaredNames();
    forall n | n in DeclaredNames() ensures n in want {
      var d :| d in ToolDeclarations && d.name == n;
      var i :| 0 <= i < |ToolDeclarations| && ToolDeclarations[i] == d;
    }
  }

  /** The navigation a tool performs, in place of the window side effect. */
  datatype Navigation =
    | NoNavigation
    | CurrentTab(url: string)                                 // window.location.href = url
    | NewTab(url: string, target: string, features: string)   // window.open(url, target, features)

  /** The `{ success }` object a tool returns. */
  datatype ToolResult = ToolResult(success: bool)

  /**
   * The outcome of a call: a result with its navigation, or an exception
   * (reading `.startsWith` of a missing `url` argument throws a TypeError).
   */
  datatype Dispatch = Done(result: ToolResult, navigation: Navigation) | Threw(error: string)

  /** Tool arguments: the string-valued properties of the `args` object. */
  type Args = map<string, string>

  predicate StartsWith(s: string, prefix: string)
  {
    |prefix| <= |s| && s[..|prefix|] == prefix
  }

  /**
   * `normalizeUrl`: prefix "https://" unless the text already starts with
   * "http". This is a plain prefix test, not a scheme check.
   */
  function NormalizeUrl(url: string): (r: string)
    ensures StartsWith(r, "http")
    ensures StartsWith(url, "http") ==> r == url
    ensures !StartsWith(url, "http") ==> r == "https://" + url
  {
    if !StartsWith(url, "http") then "https://" + url else url
  }

  /** Normalising twice is normalising once. */
  lemma NormalizeUrlIdempotent(url: string)
    ensures NormalizeUrl(NormalizeUrl(url)) == NormalizeUrl(url)
  {
  }

  /** A host name that merely begins with "http" is not given a scheme. */
  lemma NormalizeUrlPrefixOnly()
    ensures NormalizeUrl("httpbin.org") == "httpbin.org"
    ensures NormalizeUrl("example.com") == "https://example.com"
  {
    assert "httpbin.org"[..4] == "http";
    assert "example.com"[..4] != "http" by { assert "example.com"[0] != 'h'; }
  }

  const GoogleSearch: string := "https://www.google.com/search?q="
  const YouTubeSearch: string := "https://www.youtube.com/results?search_query="
  const AmazonSearch: string := "https://www.amazon.in/s?k="
  const FlipkartSearch: string := "https://www.flipkart.com/search?q="

  /** The search prefix of a search tool, or "" for any other name. */
  function SearchPrefix(name: string): string
  {
    if name == "searchGoogle" then GoogleSearch
    else if name == "searchYouTube" then YouTubeSearch
    else if name == "searchAmazon" then AmazonSearch
    else if name == "searchFlipkart" then FlipkartSearch
    else ""
  }

  /** `args.url`, which throws when the property is missing. */
  function OpenTab(args: Args, inNewTab: bool): Dispatch
  {
    if "url" !in args then Threw("TypeError: cannot read properties of undefined")
    else if inNewTab then Done(ToolResult(true), NewTab(NormalizeUrl(args["url"]), "_blank", "noopener,noreferrer"))
    else Done(ToolResult(true), CurrentTab(NormalizeUrl(args["url"])))
  }

  /** `args.query` as `encodeURIComponent` sees it: a missing query is the text "undefined". */
  function QueryText(args: Args): string
  {
    if "query" in args then args["query"] else "undefined"
  }

  /**
   * `executeTool`: the switch over the tool name. Every declared name succeeds
   * with exactly one navigation (or throws for a missing `url`); any other
   * name fails without navigating.
   */
  function ExecuteTool(name: string, args: Args, encodeComponent: string -> string): (r: Dispatch)
    ensures r.Threw? ==> (name == "openUrl" || name == "openUrlNewTab") && "url" !in args
    ensures (name == "openUrl" || name == "openUrlNewTab") && "url" !in args ==> r.Threw?
    ensures r.Done? ==> (r.result.success <==> r.navigation != NoNavigation)
  {
    if name == "openUrl" then OpenTab(args, false)
    else if name == "openUrlNewTab" then OpenTab(args, true)
    else if SearchPrefix(name) != "" then
      Done(ToolResult(true), NewTab(SearchPrefix(name) + encodeComponent(QueryText(args)), "_blank", ""))
    else Done(ToolResult(false), NoNavigation)
  }

  /** A call succeeds (or throws on a missing `url`) exactly when the catalog declares its name. */
  lemma DeclaredIffHandled(name: string, args: Args, encodeComponent: string -> string)
    ensures name in DeclaredNames() <==>
      ExecuteTool(name, args, encodeComponent).Threw? || ExecuteTool(name, args, encodeComponent).result.success
  {
    DeclaredNamesAre();
  }

  /** Any name outside the catalog, whatever its arguments, fails and navigates nowhere. */
  lemma UnknownToolFails(name: string, args: Args, encodeComponent: string -> string)
    requires name !in DeclaredNames()
    ensures ExecuteTool(name, args, encodeComponent) == Done(ToolResult(false), NoNavigation)
  {
    DeclaredNamesAre();
  }

  /**
   * The system prompt tells the model to call `youtubeSearch`, a name the
   * catalog does not declare (it declares `searchYouTube`): that call fails.
   */
  lemma YoutubeSearchIsUnknown(args: Args, encodeComponent: string -> string)
    ensures "youtubeSearch" !in DeclaredNames()
    ensures ExecuteTool("youtubeSearch", args, encodeComponent) == Done(ToolResult(false), NoNavigation)
  {
    DeclaredNamesAre();
  }

  /** `openUrl` navigates the current tab, `openUrlNewTab` opens a blank target without opener or referrer. */
  lemma OpenTools(args: Args, encodeComponent: string -> string)
    requires "url" in args
    ensures ExecuteTool("openUrl", args, encodeComponent)
      == Done(ToolResult(true), CurrentTab(NormalizeUrl(args["url"])))
    ensures ExecuteTool("openUrlNewTab", args, encodeComponent)
      == Done(ToolResult(true), NewTab(NormalizeUrl(args["url"]), "_blank", "noopener,noreferrer"))
  {
  }

  /** Each search tool opens its site's fixed prefix followed by the encoded query, in a blank target. */
  lemma SearchTools(name: string, args: Args, encodeComponent: string -> string)
    requires name in {"searchGoogle", "searchYouTube", "searchAmazon", "searchFlipkart"}
    ensures ExecuteTool(name, args, encodeComponent)
      == Done(ToolResult(true), NewTab(SearchPrefix(name) + encodeComponent(QueryText(args)), "_blank", ""))
    ensures name == "searchGoogle" ==> SearchPrefix(name) == "https://www.google.com/search?q="
    ensures name == "searchYouTube" ==> SearchPrefix(name) == "https://www.youtube.com/results?search_query="
    ensures name == "searchAmazon" ==> SearchPrefix(name) == "https://www.amazon.in/s?k="
    ensures name == "searchFlipkart" ==> SearchPrefix(name) == "https://www.flipkart.com/search?q="
  {
  }

  /**
   * Every declaration has exactly one required parameter, a string property,
   * and the dispatcher has a case for it that succeeds with one navigation
   * when that argument is present.
   */
  lemma CatalogAgreement(i: nat, args: Args, encodeComponent: string -> string)
    requires i < |ToolDeclarations|
    requires forall p :: p in ToolDeclarations[i].required ==> p in args
    ensures |ToolDeclarations[i].required| == 1
    ensures ToolDeclarations[i].properties == [Property(ToolDeclarations[i].required[0], "string")]
    ensures ExecuteTool(ToolDeclarations[i].name, args, encodeComponent).Done?
    ensures ExecuteTool(ToolDeclarations[i].name, args, encodeComponent).result.success
    ensures ExecuteTool(ToolDeclarations[i].name, args, encodeComponent).navigation != NoNavigation
  {
    assert ToolDeclarations[i].required[0] in ToolDeclarations[i].required;
    assert ToolDeclarations[i] in ToolDeclarations;
    assert ToolDeclarations[i].name in DeclaredNames();
    DeclaredIffHandled(ToolDeclarations[i].name, args, encodeComponent);
  }

  /** searchGoogle({query: "cats"}) opens a single results page whose query is "cats". */
  lemma SearchGoogleCats(encodeComponent: string -> string)
    requires encodeComponent("cats") == "cats"
    ensures ExecuteTool("searchGoogle", map["query" := "cats"], encodeComponent)
      == Done(ToolResult(true), NewTab("https://www.google.com/search?q=cats", "_blank", ""))
  {
  }
}
