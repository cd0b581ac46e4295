/**
 * The three pure helpers of the server entry point: the start-up check that
 * no two routes share a request path, the extraction of a dynamic webhook
 * URL from an incoming request, and the start-up check of a configured
 * webhook URL. The two regular expressions the URL check uses are taken as
 * parameters: the model treats "the URL matches the pattern" as a predicate
 * it knows nothing about.
 */
module Server {
  import opened Wrappers
  import opened Text

  /** `transport.Route`, of which the duplicate check reads only the request path. */
  datatype Route = Route(requestPath: string)

  /** The errors the helpers return, in place of Go's formatted `error` values. */
  datatype ServerError =
    | DuplicatePath(path: string)  // "found duplicate use of request path '<path>'"
    | NoWebhook                    // "neither webhook url nor bearer authorization present"
    | InvalidBearer                // "invalid bearer on authorization"
    | NotHttps(url: string)        // "the webhook_url must start with 'https://'"
    | UnexpectedFormat(url: string) // "the webhook_url has an unexpected format"

  // ---------------------------------------------------------------------
  // checkDuplicateRequestPath

  /** No two routes share a request path. */
  predicate Distinct(routes: seq<Route>)
  {
    forall i, j :: 0 <= i < j < |routes| ==> routes[i].requestPath != routes[j].requestPath
  }

  /** The request paths of `routes`. */
  function Paths(routes: seq<Route>): set<string>
  {
    set k | 0 <= k < |routes| :: routes[k].requestPath
  }

  /** Route `j` is the first, in scan order, whose path was already used by an earlier route. */
  predicate FirstDuplicate(routes: seq<Route>, j: nat)
  {
    && j < |routes|
    && Distinct(routes[..j])
    && exists i :: 0 <= i < j && routes[i].requestPath == routes[j].requestPath
  }

  /**
   * `checkDuplicateRequestPath`: scans the routes with the set of paths seen
   * so far (a `map[string]bool` in Go, whose values are always `true`) and
   * stops at the first path seen twice. `None` is Go's `nil`.
   */
  method CheckDuplicateRequestPath(routes: seq<Route>) returns (err: Option<ServerError>)
    ensures err.None? <==> Distinct(routes)
    ensures err.Some? ==> exists j: nat :: FirstDuplicate(routes, j) && err.value == DuplicatePath(routes[j].requestPath)
  {
    var added: map<string, bool> := map[];
    for i := 0 to |routes|
      invariant Distinct(routes[..i])
      invariant added.Keys == Paths(routes[..i])
    {
      var path := routes[i].requestPath;
      if path in added {
        var k :| 0 <= k < i && routes[..i][k].requestPath == path;
        assert routes[k].requestPath == routes[i].requestPath;
        assert FirstDuplicate(routes, i);
        return Some(DuplicatePath(path));
      }
      assert routes[..i + 1] == routes[..i] + [routes[i]];
      DistinctSnoc(routes[..i], routes[i]);
      added := added[path := true];
    }
    assert routes[..|routes|] == routes;
    return None;
  }

  /** A route whose path has not been seen keeps the routes distinct. */
  lemma DistinctSnoc(routes: seq<Route>, r: Route)
    requires Distinct(routes) && r.requestPath !in Paths(routes)
    ensures Distinct(routes + [r])
  {
    var s := routes + [r];
    forall i, j | 0 <= i < j < |s|
      ensures s[i].requestPath != s[j].requestPath
    {
      if j == |routes| {
        assert s[i] == routes[i];
        assert routes[i].requestPath in Paths(routes);
      }
    }
  }

  /** Routes inside a distinct prefix have different paths. */
  lemma PrefixDistinct(routes: seq<Route>, n: nat, i: nat, j: nat)
    requires n <= |routes| && Distinct(routes[..n]) && i < j < n
    ensures routes[i].requestPath != routes[j].requestPath
  {
    assert routes[..n][i] == routes[i] && routes[..n][j] == routes[j];
  }

  /** There is at most one first duplicate, so the path the error names is determined by the routes. */
  lemma FirstDuplicateUnique(routes: seq<Route>, j: nat, j': nat)
    requires FirstDuplicate(routes, j) && FirstDuplicate(routes, j')
    ensures j == j'
  {
    if j < j' {
      var i: nat :| i < j && routes[i].requestPath == routes[j].requestPath;
      PrefixDistinct(routes, j', i, j);
    } else if j' < j {
      var i: nat :| i < j' && routes[i].requestPath == routes[j'].requestPath;
      PrefixDistinct(routes, j, i, j');
    }
  }

  /** Routes that are not all distinct have a first duplicate. */
  lemma {:induction false} NotDistinctHasFirstDuplicate(routes: seq<Route>)
    requires !Distinct(routes)
    ensures exists j: nat :: FirstDuplicate(routes, j)
    decreases |routes|
  {
    var n := |routes| - 1;
    var init := routes[..n];
    if Distinct(init) {
      var i: nat, j: nat :| i < j < |routes| && routes[i].requestPath == routes[j].requestPath;
      if j < n {
        PrefixDistinct(routes, n, i, j);
      }
      assert FirstDuplicate(routes, n);
    } else {
      NotDistinctHasFirstDuplicate(init);
      var j: nat :| FirstDuplicate(init, j);
      assert init[..j] == routes[..j];
      var i: nat :| i < j && init[i].requestPath == init[j].requestPath;
      assert routes[i] == init[i] && routes[j] == init[j];
      assert FirstDuplicate(routes, j);
    }
  }

  /** The empty route list, and the three-route list with `/path1` twice, as the duplicate check sees them. */
  lemma DuplicateExamples()
    ensures Distinct([])
    ensures FirstDuplicate([Route("/path1"), Route("/path2"), Route("/path1")], 2)
  {
    var routes := [Route("/path1"), Route("/path2"), Route("/path1")];
    assert routes[0].requestPath == routes[2].requestPath;
    assert routes[..2] == [Route("/path1"), Route("/path2")];
  }

  // ---------------------------------------------------------------------
  // extractWebhookFromRequest

  /**
   * The parts of an `http.Request` the extraction reads. `hasQuery` is
   * whether `URL.Query()` yields any parameter; the query parsing itself
   * belongs to `net/url`.
   */
  datatype Request = Request(path: string, rawQuery: string, hasQuery: bool, authorization: string)

  const BearerType: string := "webhook"

  /** The path, with `?` and the raw query when the query has parameters. */
  function PathAndQuery(req: Request): string
  {
    if req.hasQuery then req.path + "?" + req.rawQuery else req.path
  }

  /**
   * `extractWebhookFromRequest`: what follows the route prefix in the URL
   * is the webhook; when nothing follows it, the `Authorization` header must
   * start with `webhook`, and the webhook is the header with a leading
   * `webhook ` removed.
   */
  function ExtractWebhook(req: Request, prefix: string): (r: Result<string, ServerError>)
    ensures r.Success? ==> HasPrefix(r.value, "https://")
  {
    var rest := TrimPrefix(PathAndQuery(req), prefix);
    if rest != "" then Success("https://" + rest)
    else if req.authorization == "" then Failure(NoWebhook)
    else if !HasPrefix(req.authorization, BearerType) then Failure(InvalidBearer)
    else Success("https://" + TrimPrefix(req.authorization, BearerType + " "))
  }

  /** A webhook in the URL wins: the result is `https://` and the rest of the URL, whatever the header says. */
  lemma ExtractFromPath(req: Request, prefix: string, u: string)
    requires u != "" && PathAndQuery(req) == prefix + u
    ensures ExtractWebhook(req, prefix) == Success("https://" + u)
    ensures forall h :: ExtractWebhook(req.(authorization := h), prefix) == Success("https://" + u)
  {
    assert (prefix + u)[..|prefix|] == prefix;
    assert (prefix + u)[|prefix|..] == u;
  }

  /** With nothing after the prefix, the request fails exactly when the header is empty or is not a `webhook` bearer. */
  lemma ExtractErrors(req: Request, prefix: string)
    requires TrimPrefix(PathAndQuery(req), prefix) == ""
    ensures ExtractWebhook(req, prefix).Failure? <==> req.authorization == "" || !HasPrefix(req.authorization, "webhook")
    ensures ExtractWebhook(req, prefix) == Failure(NoWebhook) <==> req.authorization == ""
  {
  }

  /** The header form `webhook <url>` gives back `https://<url>`, and a header without the space is kept whole. */
  lemma ExtractFromHeader(prefix: string, u: string)
    ensures ExtractWebhook(Request(prefix, "", false, "webhook " + u), prefix) == Success("https://" + u)
    ensures ExtractWebhook(Request(prefix, "", false, "webhookX"), prefix) == Success("https://webhookX")
  {
    var h := "webhook " + u;
    assert h[..|BearerType|] == BearerType && h[..|BearerType + " "|] == BearerType + " ";
    assert h[|BearerType + " "|..] == u;
    assert prefix[..|prefix|] == prefix;
    assert !HasPrefix("webhookX", BearerType + " ") by {
      assert "webhookX"[7] != (BearerType + " ")[7];
    }
    assert HasPrefix("webhookX", BearerType) by {
      assert "webhookX"[..7] == "webhook";
    }
    assert "https://" + "webhookX" == "https://webhookX";
  }

  // ---------------------------------------------------------------------
  // validateWebhook

  /** `service.WebhookType` values. */
  const O365: string := "o365"
  const Workflow: string := "microsoft-workflow"

  /** The pre-2021 connector URL format, still accepted for O365. */
  const LegacyWebhookPrefix: string := "outlook.office.com/webhook/"

  /**
   * `validateWebhook`: the URL must start with `https://`; the rest must
   * match the O365 pattern or start with the legacy prefix for O365, and
   * match the Workflow pattern for Workflow; other types are not checked
   * further. `None` is Go's `nil`.
   */
  function ValidateWebhook(webhookType: string, u: string, matchesO365: string -> bool, matchesWorkflow: string -> bool): (err: Option<ServerError>)
    ensures err.Some? ==> err.value.NotHttps? || err.value.UnexpectedFormat?
  {
    var path := TrimPrefix(u, "https://");
    if u == path then Some(NotHttps(u))
    else if webhookType == O365 then
      if matchesO365(path) || HasPrefix(path, LegacyWebhookPrefix) then None else Some(UnexpectedFormat(u))
    else if webhookType == Workflow then
      if matchesWorkflow(path) then None else Some(UnexpectedFormat(u))
    else None
  }

  /** A URL not starting with `https://` is refused as such whatever the type, and only such a URL is. */
  lemma ValidateNeedsHttps(webhookType: string, u: string, matchesO365: string -> bool, matchesWorkflow: string -> bool)
    ensures ValidateWebhook(webhookType, u, matchesO365, matchesWorkflow) == Some(NotHttps(u)) <==> !HasPrefix(u, "https://")
  {
    TrimPrefixChanges(u, "https://");
  }

  /** The verdict for each type, on an `https://` URL whose rest is `path`. */
  lemma ValidateVerdicts(webhookType: string, path: string, matchesO365: string -> bool, matchesWorkflow: string -> bool)
    ensures var err := ValidateWebhook(webhookType, "https://" + path, matchesO365, matchesWorkflow);
      && (webhookType == Workflow ==> (err.None? <==> matchesWorkflow(path)))
      && (webhookType == O365 ==> (err.None? <==> matchesO365(path) || HasPrefix(path, LegacyWebhookPrefix)))
      && (webhookType != O365 && webhookType != Workflow ==> err.None?)
      && (err.Some? ==> err.value == UnexpectedFormat("https://" + path))
  {
    var u := "https://" + path;
    assert u[..|"https://"|] == "https://" && u[|"https://"|..] == path;
  }

  /** A legacy connector URL passes for O365 whatever the pattern says. */
  lemma LegacyAccepted(rest: string, matchesO365: string -> bool, matchesWorkflow: string -> bool)
    ensures ValidateWebhook(O365, "https://" + LegacyWebhookPrefix + rest, matchesO365, matchesWorkflow).None?
  {
    var path := LegacyWebhookPrefix + rest;
    assert "https://" + LegacyWebhookPrefix + rest == "https://" + path;
    ValidateVerdicts(O365, path, matchesO365, matchesWorkflow);
    assert path[..|LegacyWebhookPrefix|] == LegacyWebhookPrefix;
  }

  /** A webhook taken from a request never fails the `https://` check. */
  lemma ExtractedIsHttps(req: Request, prefix: string, webhookType: string, matchesO365: string -> bool, matchesWorkflow: string -> bool)
    requires ExtractWebhook(req, prefix).Success?
    ensures ValidateWebhook(webhookType, ExtractWebhook(req, prefix).value, matchesO365, matchesWorkflow) != Some(NotHttps(ExtractWebhook(req, prefix).value))
  {
    ValidateNeedsHttps(webhookType, ExtractWebhook(req, prefix).value, matchesO365, matchesWorkflow);
  }
}
