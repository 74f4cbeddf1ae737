/** The dashboard: the children list fetch, the choice between spinner,
    empty state and grid, and where each child's photo is loaded from. */
module Dashboard {
  import opened Wrappers
  import opened Text
  import opened Api

  /** The photo `src`: no photo for a missing or empty URL; a URL starting
      with "http" (so also "https") is used as is, anything else is taken to
      be a path on the API server. Either way the result ends with the
      stored URL. */
  function PhotoSrc(apiUrl: string, photoUrl: Option<string>): (src: Option<string>)
    ensures src.Some? <==> Truthy(photoUrl)
    ensures src.Some? ==> EndsWith(src.value, photoUrl.value)
    ensures src.Some? && StartsWith(photoUrl.value, "http") ==> src.value == photoUrl.value
    ensures src.Some? && !StartsWith(photoUrl.value, "http") ==>
      StartsWith(src.value, apiUrl) && |src.value| == |apiUrl| + |photoUrl.value|
  {
    if !Truthy(photoUrl) then None
    else if StartsWith(photoUrl.value, "http") then Some(photoUrl.value)
    else Some(apiUrl + photoUrl.value)
  }

  /** With an `http(s)` API base every photo is loaded from an absolute
      `http(s)` address. */
  lemma PhotoSrcIsAbsolute(apiUrl: string, photoUrl: Option<string>)
    requires StartsWith(apiUrl, "http")
    requires Truthy(photoUrl)
    ensures StartsWith(PhotoSrc(apiUrl, photoUrl).value, "http")
  {
    var src := PhotoSrc(apiUrl, photoUrl).value;
    if !StartsWith(photoUrl.value, "http") {
      assert src[..4] == apiUrl[..4];
    }
  }

  /** The prefix test is on the letters "http" alone: every value that
      begins with them, a relative path such as "httpdocs/a.png" included,
      is left unprefixed, and every other non-empty value gets the base. */
  lemma HttpPrefixIsLoose(apiUrl: string, p: string)
    ensures StartsWith(p, "http") ==> PhotoSrc(apiUrl, Some(p)) == Some(p)
    ensures p != "" && !StartsWith(p, "http") ==> PhotoSrc(apiUrl, Some(p)) == Some(apiUrl + p)
    ensures PhotoSrc(apiUrl, Some("httpdocs/a.png")) == Some("httpdocs/a.png")
  {
    assert StartsWith("httpdocs/a.png", "http");
  }

  /** One card of the grid. */
  datatype Card = Card(name: string, age: int, photo: Option<string>, detailHref: string, mapHref: string)

  datatype View = Loading | Empty | Grid(cards: seq<Card>)

  function CardOf(apiUrl: string, c: Child): Card {
    Card(c.name, c.age, PhotoSrc(apiUrl, c.photoUrl), "/children/" + c.id, "/children/" + c.id + "/map")
  }

  /** The view: a spinner while loading, else the empty state exactly when
      there are no children, else one card per child in list order. */
  function ViewOf(apiUrl: string, loading: bool, children: seq<Child>): (v: View)
    ensures v.Loading? <==> loading
    ensures v.Empty? <==> !loading && children == []
    ensures v.Grid? ==> |v.cards| == |children| > 0
    ensures v.Grid? ==> forall i :: 0 <= i < |children| ==>
      && v.cards[i].name == children[i].name && v.cards[i].age == children[i].age
      && v.cards[i].photo == PhotoSrc(apiUrl, children[i].photoUrl)
      && v.cards[i].detailHref == "/children/" + children[i].id
      && v.cards[i].mapHref == v.cards[i].detailHref + "/map"
  {
    if loading then Loading
    else if |children| == 0 then Empty
    else Grid(seq(|children|, i requires 0 <= i < |children| => CardOf(apiUrl, children[i])))
  }

  /** The page's three state cells. */
  datatype DashState = DashState(children: seq<Child>, loading: bool, error: string)

  const Initial: DashState := DashState([], true, "")

  /** The fetch effect (it runs again when the token or the path changes):
      without a truthy token nothing is requested and nothing changes. */
  function Start(s: DashState, token: Option<string>): (r: (DashState, Option<Endpoint>))
    ensures !Truthy(token) ==> r.0 == s && r.1.None?
    ensures Truthy(token) ==> r.0.loading && r.1 == Some(ListChildren(token.value))
    ensures r.0.children == s.children && r.0.error == s.error
  {
    if !Truthy(token) then (s, None)
    else (s.(loading := true), Some(ListChildren(token.value)))
  }

  /** The fetch settling: the list on success, the message on failure, and
      loading false either way. */
  function Settle(s: DashState, res: Result<seq<Child>, string>): (r: DashState)
    ensures !r.loading
    ensures res.Success? ==> r.children == res.value && r.error == s.error
    ensures res.Failure? ==> r.children == s.children && r.error == res.error
  {
    match res
    case Success(cs) => s.(children := cs, loading := false)
    case Failure(e) => s.(error := e, loading := false)
  }

  /** Without a token the page never leaves its spinner. */
  lemma NoTokenKeepsSpinner(apiUrl: string, token: Option<string>)
    requires !Truthy(token)
    ensures var s := Start(Initial, token).0; ViewOf(apiUrl, s.loading, s.children) == Loading
  {
  }

  /** A failed fetch followed by a successful one shows the new list but
      keeps the old error message: only failure writes the error cell. */
  lemma ErrorOutlivesRetry(token: string, e: string, cs: seq<Child>)
    requires token != ""
    ensures var s1 := Settle(Start(Initial, Some(token)).0, Failure(e));
      var s2 := Settle(Start(s1, Some(token)).0, Success(cs));
      s2.children == cs && s2.error == e && !s2.loading
  {
  }
}
