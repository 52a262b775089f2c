/** The headline lookup behind the briefing's news card: one NewsAPI lookup
    per category, the failed ones dropped, a general batch appended without
    the ids already present, and the whole cut to five. */
module NewsFlow {

  import opened Wrappers
  import opened Types

  /** The fields of a NewsAPI article the tool reads. */
  datatype Article = Article(url: string, title: string, sourceName: string)

  /** A parsed NewsAPI reply body: its `status` and its `articles`, if any. */
  datatype NewsBody = NewsBody(status: string, articles: Option<seq<Article>>)

  /** How one `fetch` ended: it threw, or it gave a response whose body
      `json()` either parses or rejects with a message. */
  datatype NewsReply =
    | Threw(message: string)
    | Response(ok: bool, body: Result<NewsBody>)

  /** The parameters of one top-headlines request besides the key. */
  datatype NewsQuery = NewsQuery(country: string, pageSize: nat, category: Option<string>, q: Option<string>)

  /** The three category lookups, in order: technology, movies in
      entertainment, and a search for Kerala, one article each from India. */
  const CategoryQueries: seq<NewsQuery> := [
    NewsQuery("in", 1, Some("technology"), None),
    NewsQuery("in", 1, Some("entertainment"), Some("movies")),
    NewsQuery("in", 1, None, Some("Kerala"))
  ]

  /** An uncategorised request for n articles from India. */
  function GeneralQuery(n: nat): NewsQuery {
    NewsQuery("in", n, None, None)
  }

  /** An article as a headline: its URL serves as the id. */
  function ToHeadline(a: Article): NewsHeadline {
    NewsHeadline(a.url, a.title, a.sourceName)
  }

  /** `fetchHeadline`: null when the request throws, the status is not ok,
      the body does not parse, its status is not "ok" or it has no articles
      (reading the length of missing articles throws inside the try);
      otherwise the first article. */
  function FetchHeadline(reply: NewsReply): (h: Option<NewsHeadline>)
    ensures h.Some? <==>
      && reply.Response? && reply.ok && reply.body.Success?
      && reply.body.value.status == "ok"
      && reply.body.value.articles.Some? && reply.body.value.articles.value != []
    ensures h.Some? ==> h.value == ToHeadline(reply.body.value.articles.value[0])
  {
    match reply
    case Threw(_) => None
    case Response(ok, body) =>
      if !ok then None
      else match body
        case Failure(_) => None
        case Success(data) =>
          if data.status != "ok" || data.articles.None? || data.articles.value == [] then None
          else Some(ToHeadline(data.articles.value[0]))
  }

  /** The non-null lookup results, in order. */
  function Present(xs: seq<Option<NewsHeadline>>): (r: seq<NewsHeadline>)
    ensures |r| <= |xs|
    ensures forall x :: x in r <==> Some(x) in xs
  {
    if xs == [] then []
    else
      assert xs == [xs[0]] + xs[1..];
      (if xs[0].Some? then [xs[0].value] else []) + Present(xs[1..])
  }

  /** Dropping the nulls keeps the order of what remains. */
  lemma {:induction false} PresentAppend(xs: seq<Option<NewsHeadline>>, ys: seq<Option<NewsHeadline>>)
    ensures Present(xs + ys) == Present(xs) + Present(ys)
  {
    if xs == [] {
      assert xs + ys == ys;
    } else {
      assert (xs + ys)[1..] == xs[1..] + ys;
      PresentAppend(xs[1..], ys);
    }
  }

  /** The lookups that succeeded, one per successful category, in category order. */
  function CategoryHeadlines(replies: seq<NewsReply>): (hs: seq<NewsHeadline>)
    ensures |hs| <= |replies|
    ensures forall h :: h in hs <==> exists i :: 0 <= i < |replies| && FetchHeadline(replies[i]) == Some(h)
    ensures hs == Present(seq(|replies|, i requires 0 <= i < |replies| => FetchHeadline(replies[i])))
  {
    var results := seq(|replies|, i requires 0 <= i < |replies| => FetchHeadline(replies[i]));
    assert forall i :: 0 <= i < |replies| ==> results[i] == FetchHeadline(replies[i]);
    assert forall h :: Some(h) in results <==> exists i :: 0 <= i < |replies| && FetchHeadline(replies[i]) == Some(h);
    Present(results)
  }

  /** The batch as headlines, without those whose id is already among
      `existing`, in batch order. The batch is not checked against itself. */
  function Unseen(batch: seq<Article>, existing: seq<NewsHeadline>): (r: seq<NewsHeadline>)
    ensures |r| <= |batch|
  {
    if batch == [] then []
    else (if batch[0].url in Ids(existing) then [] else [ToHeadline(batch[0])]) + Unseen(batch[1..], existing)
  }

  /** Exactly the batch articles with a new id are kept: no kept headline
      shares an id with `existing`, each comes from the batch, and every
      batch article whose URL is new is there. */
  lemma {:induction false} UnseenKeepsNew(batch: seq<Article>, existing: seq<NewsHeadline>)
    ensures forall h :: h in Unseen(batch, existing) ==> h.id !in Ids(existing)
    ensures forall h :: h in Unseen(batch, existing) ==> exists a :: a in batch && h == ToHeadline(a)
    ensures forall a :: a in batch && a.url !in Ids(existing) ==> ToHeadline(a) in Unseen(batch, existing)
  {
    if batch != [] {
      UnseenKeepsNew(batch[1..], existing);
      assert forall a :: a in batch ==> a == batch[0] || a in batch[1..];
    }
  }

  /** Filtering by id keeps batch order. */
  lemma {:induction false} UnseenAppend(xs: seq<Article>, ys: seq<Article>, existing: seq<NewsHeadline>)
    ensures Unseen(xs + ys, existing) == Unseen(xs, existing) + Unseen(ys, existing)
  {
    if xs == [] {
      assert xs + ys == ys;
    } else {
      var zs := xs + ys;
      assert zs[0] == xs[0] && zs[1..] == xs[1..] + ys;
      UnseenAppend(xs[1..], ys, existing);
      var head := if xs[0].url in Ids(existing) then [] else [ToHeadline(xs[0])];
      assert Unseen(zs, existing) == head + Unseen(zs[1..], existing);
    }
  }

  /** Two copies of one article in the general batch both survive: the
      merged list may repeat an id. */
  lemma RepeatedArticleKept(a: Article, existing: seq<NewsHeadline>)
    requires a.url !in Ids(existing)
    ensures Unseen([a, a], existing) == [ToHeadline(a), ToHeadline(a)]
  {
    assert [a, a][1..] == [a];
  }

  /** An ok response whose body parsed with status "ok" and an article list. */
  predicate DeliversArticles(reply: NewsReply) {
    && reply.Response? && reply.ok && reply.body.Success?
    && reply.body.value.status == "ok" && reply.body.value.articles.Some?
  }

  /** The second general fetch, which sits outside the try: a throw or a
      body that does not parse rejects the whole tool; a non-ok status, a
      status other than "ok" or missing articles add nothing. */
  function GeneralBatch(reply: NewsReply): (r: Result<seq<Article>>)
    ensures r.Failure? <==> reply.Threw? || (reply.ok && reply.body.Failure?)
    ensures r.Success? && r.value != [] ==>
      reply.Response? && reply.ok && reply.body.Success? && reply.body.value.status == "ok"
      && reply.body.value.articles == Some(r.value)
    ensures DeliversArticles(reply) ==> r == Success(reply.body.value.articles.value)
  {
    match reply
    case Threw(message) => Failure(message)
    case Response(ok, body) =>
      if !ok then Success([])
      else match body
        case Failure(message) => Failure(message)
        case Success(data) =>
          if data.status == "ok" && data.articles.Some? then Success(data.articles.value) else Success([])
  }

  /** The first n elements, or all of them when there are fewer. */
  function Take<T>(s: seq<T>, n: nat): (r: seq<T>)
    ensures |r| <= n && |r| <= |s|
    ensures |r| == if |s| <= n then |s| else n
    ensures r == s[..|r|]
    ensures |s| <= n ==> r == s
  {
    if |s| <= n then s else s[..n]
  }

  /** What the general batch contributes: nothing unless the probe lookup
      found a headline and the second fetch gave articles. */
  function Appended(cat: seq<NewsHeadline>, probe: Option<NewsHeadline>, batch: Result<seq<Article>>): seq<NewsHeadline> {
    if probe.Some? && batch.Success? then Unseen(batch.value, cat) else []
  }

  /** `getNewsTool`: returns the headlines, or the rejection of the second
      general fetch, together with the requests it sent, in order. */
  method GetNewsTool(apiKey: string, categoryReplies: seq<NewsReply>, probeReply: NewsReply, generalReply: NewsReply)
    returns (result: Result<seq<NewsHeadline>>, queries: seq<NewsQuery>)
    requires |categoryReplies| == |CategoryQueries|
    ensures apiKey == "" ==> result == Success([]) && queries == []
    ensures apiKey != "" ==>
      var cat := CategoryHeadlines(categoryReplies);
      && |queries| == (if FetchHeadline(probeReply).Some? then 5 else 4)
      && queries[..3] == CategoryQueries
      && (forall i :: 3 <= i < |queries| ==> queries[i] == GeneralQuery(5 - |cat|))
      && 2 <= 5 - |cat| <= 5
    ensures result.Failure? <==>
      apiKey != "" && FetchHeadline(probeReply).Some? && GeneralBatch(generalReply).Failure?
    ensures result.Success? && apiKey != "" ==>
      var cat := CategoryHeadlines(categoryReplies);
      && result.value == Take(cat + Appended(cat, FetchHeadline(probeReply), GeneralBatch(generalReply)), 5)
      && |result.value| <= 5
      && result.value[..|cat|] == cat
      && (forall i :: |cat| <= i < |result.value| ==> result.value[i].id !in Ids(cat))
    ensures result.Success? && apiKey != "" && (FetchHeadline(probeReply).None? || GeneralBatch(generalReply) == Success([])) ==>
      result.value == CategoryHeadlines(categoryReplies)
  {
    if apiKey == "" {
      return Success([]), [];
    }
    queries := CategoryQueries;
    var headlines := CategoryHeadlines(categoryReplies);
    var size := 5 - |headlines|;
    queries := queries + [GeneralQuery(size)];
    var probe := FetchHeadline(probeReply);
    if probe.Some? {
      queries := queries + [GeneralQuery(size)];
      var batch := GeneralBatch(generalReply);
      if batch.Failure? {
        return Failure(batch.message), queries;
      }
      var newHeadlines := Unseen(batch.value, headlines);
      UnseenKeepsNew(batch.value, headlines);
      headlines := headlines + newHeadlines;
    }
    result := Success(Take(headlines, 5));
  }
}
