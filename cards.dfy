/**
 * The post cards of the developer and user list pages: the truncated title
 * and content they display, and where clicking them navigates. A `char`
 * stands for one UTF-16 code unit, the unit of JavaScript's `length` and
 * `substring`; this holds for text within the Basic Multilingual Plane.
 */
module Cards {

  import opened Routing

  const TitleLimit: nat := 50
  const ContentLimit: nat := 100
  const Ellipsis: string := "..."

  /** A post as the API returns it; only these fields are displayed. */
  datatype Post = Post(id: int, title: string, content: string)

  /**
   * The card rule: text strictly longer than the limit is cut to its first
   * `limit` units followed by "..."; anything else is shown unchanged.
   */
  function Truncate(s: string, limit: nat): (r: string)
    ensures |s| <= limit ==> r == s
    ensures |s| > limit ==> |r| == limit + |Ellipsis| && r[..limit] == s[..limit] && r[limit..] == Ellipsis
  {
    if |s| > limit then s[..limit] + Ellipsis else s
  }

  function Min(a: nat, b: nat): nat
  {
    if a <= b then a else b
  }

  /**
   * Every displayed text is at most three units longer than the limit and
   * begins with the first min(length, limit) units of the original.
   */
  lemma TruncateBoundsAndPrefix(s: string, limit: nat)
    ensures |Truncate(s, limit)| <= limit + 3
    ensures |Truncate(s, limit)| >= Min(|s|, limit)
    ensures s[..Min(|s|, limit)] <= Truncate(s, limit)
  {
  }

  /** The boundary: a text of exactly the limit is kept, one unit more is cut. */
  lemma TruncateAtBoundary(s: string, limit: nat)
    ensures |s| == limit ==> Truncate(s, limit) == s
    ensures |s| == limit + 1 ==> Truncate(s, limit) != s && Truncate(s, limit) == s[..limit] + Ellipsis
  {
  }

  /** Truncating a displayed text again leaves it as it is. */
  lemma TruncateIdempotent(s: string, limit: nat)
    ensures Truncate(Truncate(s, limit), limit) == Truncate(s, limit)
  {
    if |s| > limit {
      var r := Truncate(s, limit);
      assert r[..limit] == s[..limit];
      assert r == r[..limit] + Ellipsis;
    }
  }

  /** The title as a card displays it. */
  function DisplayTitle(title: string): (r: string)
    ensures |r| <= TitleLimit + 3
    ensures |title| <= TitleLimit ==> r == title
    ensures |title| > TitleLimit ==> r == title[..TitleLimit] + Ellipsis
  {
    Truncate(title, TitleLimit)
  }

  /** The content as a card displays it. */
  function DisplayContent(content: string): (r: string)
    ensures |r| <= ContentLimit + 3
    ensures |content| <= ContentLimit ==> r == content
    ensures |content| > ContentLimit ==> r == content[..ContentLimit] + Ellipsis
  {
    Truncate(content, ContentLimit)
  }

  // Decimal rendering of a post id, as a template literal renders an integer.

  function DigitChar(d: nat): (c: char)
    requires d < 10
    ensures '0' <= c <= '9'
  {
    ('0' as int + d) as char
  }

  function DigitValue(c: char): nat
  {
    if '0' <= c <= '9' then c as int - '0' as int else 0
  }

  /** The digits of a natural number, most significant first, no leading zeros. */
  function NatDigits(n: nat): string
    decreases n
  {
    if n < 10 then [DigitChar(n)] else NatDigits(n / 10) + [DigitChar(n % 10)]
  }

  /** `${id}` for an integer id: a minus sign for a negative one, then the digits. */
  function Decimal(i: int): (r: string)
    ensures r != []
    ensures r[0] == '-' <==> i < 0
  {
    if i < 0 then "-" + NatDigits(-i)
    else
      NatDigitsAreDigits(i);
      NatDigits(i)
  }

  /** The value of a digit string, most significant first. */
  function NatValue(s: string): nat
    decreases |s|
  {
    if s == [] then 0 else NatValue(s[..|s| - 1]) * 10 + DigitValue(s[|s| - 1])
  }

  /** The integer a decimal string denotes: the inverse of `Decimal`. */
  function IntValue(s: string): int
  {
    if s != [] && s[0] == '-' then 0 - NatValue(s[1..]) else NatValue(s)
  }

  /** Digit strings are non-empty and hold only digits. */
  lemma {:induction false} NatDigitsAreDigits(n: nat)
    ensures NatDigits(n) != []
    ensures forall k :: 0 <= k < |NatDigits(n)| ==> '0' <= NatDigits(n)[k] <= '9'
    decreases n
  {
    if n >= 10 {
      NatDigitsAreDigits(n / 10);
    }
  }

  /** Reading back the digits of `n` gives `n`. */
  lemma {:induction false} NatDigitsRoundTrip(n: nat)
    ensures NatValue(NatDigits(n)) == n
    decreases n
  {
    if n >= 10 {
      var s := NatDigits(n);
      assert s[..|s| - 1] == NatDigits(n / 10);
      NatDigitsRoundTrip(n / 10);
    }
  }

  /** Reading back the rendering of an id gives the id. */
  lemma DecimalRoundTrip(i: int)
    ensures IntValue(Decimal(i)) == i
  {
    var s := Decimal(i);
    if i < 0 {
      assert s[1..] == NatDigits(-i);
      NatDigitsRoundTrip(-i);
    } else {
      NatDigitsAreDigits(i);
      assert s[0] != '-';
      NatDigitsRoundTrip(i);
    }
  }

  /** Distinct ids render to distinct strings. */
  lemma DecimalInjective(a: int, b: int)
    requires Decimal(a) == Decimal(b)
    ensures a == b
  {
    DecimalRoundTrip(a);
    DecimalRoundTrip(b);
  }

  /** A rendered id is one non-empty path segment. */
  lemma DecimalIsSegment(i: int)
    ensures Decimal(i) != []
    ensures '/' !in Decimal(i)
  {
    if i < 0 {
      NatDigitsAreDigits(-i);
      assert Decimal(i)[1..] == NatDigits(-i);
    } else {
      NatDigitsAreDigits(i);
    }
  }

  // Navigation targets, relative to the list page mounted at the blog root.

  /** The card click's target, `posts/${id}`. */
  function DetailTarget(id: int): (r: string)
    ensures |r| > 6 && r[..6] == "posts/" && r[6..] == Decimal(id)
    ensures '/' !in r[6..]
  {
    DecimalIsSegment(id);
    "posts/" + Decimal(id)
  }

  /** The developer list's "Create New Post" target. */
  const CreateTarget: string := "create"

  /** A relative target resolved from the list page, which sits at the root of the blog routes. */
  function FromList(target: string): string
  {
    "/" + target
  }

  /**
   * A card click opens the detail view of that very post: the target matches
   * the "/posts/:id" route, the route parameter reads back as the post's id,
   * and different posts lead to different targets.
   */
  lemma CardClickOpensDetail(mode: Mode, authenticated: bool, id: int)
    requires !Gated(mode, authenticated)
    ensures Match(FromList(DetailTarget(id))) == PostPath(Decimal(id))
    ensures Select(mode, authenticated, Match(FromList(DetailTarget(id)))) == Detail(Decimal(id))
    ensures IntValue(Decimal(id)) == id
  {
    DecimalIsSegment(id);
    assert FromList(DetailTarget(id)) == "/posts/" + Decimal(id);
    MatchRoutes(Decimal(id));
    DecimalRoundTrip(id);
  }

  lemma DetailTargetInjective(a: int, b: int)
    requires DetailTarget(a) == DetailTarget(b)
    ensures a == b
  {
    assert Decimal(a) == DetailTarget(a)[6..];
    assert Decimal(b) == DetailTarget(b)[6..];
    DecimalInjective(a, b);
  }

  /** The create button opens the create form once past the gate. */
  lemma CreateButtonOpensForm()
    ensures Match(FromList(CreateTarget)) == CreatePath
    ensures Select(Developer, true, Match(FromList(CreateTarget))) == Create
  {
    assert FromList(CreateTarget) == "/create";
  }

  // Clicks on the two list pages.

  /** What a click does: navigate to a relative target, or delete a post. */
  datatype Action = Navigate(target: string) | Delete(id: int)

  /** The clickable controls of the developer list. */
  datatype DeveloperControl = CreateButton | DeveloperCard(post: Post) | DeleteButton(post: Post)

  /** What a control's own click handler does, and whether it stops the click's propagation. */
  datatype Handled = Handled(actions: seq<Action>, stopped: bool)

  /** The click handlers of the developer list's controls. */
  function DeveloperHandler(c: DeveloperControl): (h: Handled)
    ensures h.stopped <==> c.DeleteButton?
    ensures c.CreateButton? ==> h.actions == [Navigate(CreateTarget)]
    ensures c.DeveloperCard? ==> h.actions == [Navigate(DetailTarget(c.post.id))]
    ensures c.DeleteButton? ==> h.actions == [Delete(c.post.id)]
  {
    match c
    case CreateButton => Handled([Navigate(CreateTarget)], false)
    case DeveloperCard(p) => Handled([Navigate(DetailTarget(p.id))], false)
    case DeleteButton(p) => Handled([Delete(p.id)], true)
  }

  /**
   * A click on a control: its own handler runs, then, unless the handler
   * stopped propagation, the click bubbles to the enclosing card, whose
   * handler navigates to the post. Only the delete button sits inside a card.
   */
  function Dispatch(c: DeveloperControl, h: Handled): (actions: seq<Action>)
    ensures h.actions <= actions
    ensures h.stopped || !c.DeleteButton? ==> actions == h.actions
  {
    if !h.stopped && c.DeleteButton? then
      h.actions + DeveloperHandler(DeveloperCard(c.post)).actions
    else
      h.actions
  }

  /** The actions one click on a developer-list control triggers. */
  function DeveloperClick(c: DeveloperControl): (actions: seq<Action>)
    ensures |actions| == 1
    ensures forall a :: a in actions ==> (a.Navigate? <==> !c.DeleteButton?)
    ensures c.DeleteButton? ==> actions == [Delete(c.post.id)]
  {
    Dispatch(c, DeveloperHandler(c))
  }

  /** The only clickable control of the user list is the card. */
  function UserClick(p: Post): (actions: seq<Action>)
    ensures |actions| == 1
    ensures forall a :: a in actions ==> a == Navigate(DetailTarget(p.id)) && a.target != CreateTarget
  {
    [Navigate(DetailTarget(p.id))]
  }

  /**
   * Deleting deletes exactly that post and navigates nowhere, because the
   * delete handler stops propagation; were it not stopped, the click would
   * also reach the card and navigate to the post.
   */
  lemma DeleteDoesNotNavigate(p: Post)
    ensures DeveloperClick(DeleteButton(p)) == [Delete(p.id)]
    ensures forall a :: a in DeveloperClick(DeleteButton(p)) ==> !a.Navigate?
    ensures Dispatch(DeleteButton(p), DeveloperHandler(DeleteButton(p)).(stopped := false))
      == [Delete(p.id), Navigate(DetailTarget(p.id))]
  {
  }

  /**
   * Every click on the developer list does one thing: open the create form,
   * open the clicked post, or delete the clicked post.
   */
  lemma DeveloperClickTargets(c: DeveloperControl)
    ensures |DeveloperClick(c)| == 1
    ensures c.CreateButton? ==> Match(FromList(DeveloperClick(c)[0].target)) == CreatePath
    ensures c.DeveloperCard? ==> Match(FromList(DeveloperClick(c)[0].target)) == PostPath(Decimal(c.post.id))
    ensures DeveloperClick(c)[0].Delete? <==> c.DeleteButton?
    ensures c.DeleteButton? ==> DeveloperClick(c)[0].id == c.post.id
  {
    match c
    case CreateButton => CreateButtonOpensForm();
    case DeveloperCard(p) => CardClickOpensDetail(Developer, true, p.id);
    case DeleteButton(p) =>
  }

  /** The user list never deletes and never creates: its one target is the post's detail. */
  lemma UserClickOnlyOpensDetail(p: Post)
    ensures forall a :: a in UserClick(p) ==> a.Navigate? && Match(FromList(a.target)) == PostPath(Decimal(p.id))
  {
    CardClickOpensDetail(User, false, p.id);
  }

  /** What a card shows: the truncated title and content. */
  datatype Card = Card(title: string, content: string)

  /** The cards of a list page, one per post, in the order the API returned them. */
  function Cards(posts: seq<Post>): (cards: seq<Card>)
    ensures |cards| == |posts|
    ensures forall k :: 0 <= k < |posts| ==>
      cards[k] == Card(DisplayTitle(posts[k].title), DisplayContent(posts[k].content))
    ensures forall k :: 0 <= k < |posts| ==>
      |cards[k].title| <= TitleLimit + 3 && |cards[k].content| <= ContentLimit + 3
      && posts[k].title[..Min(|posts[k].title|, TitleLimit)] <= cards[k].title
      && posts[k].content[..Min(|posts[k].content|, ContentLimit)] <= cards[k].content
  {
    seq(|posts|, k requires 0 <= k < |posts| => Card(DisplayTitle(posts[k].title), DisplayContent(posts[k].content)))
  }
}
