/** The three decisions `PostCard` makes: which author it names, whether it shows the
    post's date relative to now or as a calendar date, and which layout entry it spreads
    into the card's style. */
module PostCard {
  import opened Wrappers
  import opened Entities
  import opened CssStyle

  // ---------------------------------------------------------------------------
  // Author lookup

  /** Some author in `authors` points at `postId`. */
  predicate HasMatch(authors: seq<User>, postId: string) {
    exists i :: 0 <= i < |authors| && authors[i].postId == postId
  }

  /** `i` is the lowest index whose author points at `postId`. */
  predicate IsFirstMatch(authors: seq<User>, postId: string, i: int) {
    && 0 <= i < |authors|
    && authors[i].postId == postId
    && forall j :: 0 <= j < i ==> authors[j].postId != postId
  }

  /** The first author, in sequence order, whose `postId` is the key, reduced to its
      `username`; `None` (the source's `null`) when no author points at the key. An empty
      `username` is still a found author: the code tests the record, not the name. */
  function FindAuthorByPostId(authors: seq<User>, postId: string): (r: Option<string>)
    ensures r.None? <==> !HasMatch(authors, postId)
    ensures r.Some? ==> exists i :: IsFirstMatch(authors, postId, i) && authors[i].username == r.value
    decreases |authors|
  {
    if |authors| == 0 then None
    else if authors[0].postId == postId then
      assert IsFirstMatch(authors, postId, 0);
      Some(authors[0].username)
    else
      var rest := FindAuthorByPostId(authors[1..], postId);
      assert HasMatch(authors[1..], postId) <==> HasMatch(authors, postId) by {
        if HasMatch(authors, postId) {
          var i :| 0 <= i < |authors| && authors[i].postId == postId;
          assert authors[1..][i - 1].postId == postId;
        }
      }
      assert rest.Some? ==> exists i :: IsFirstMatch(authors, postId, i) && authors[i].username == rest.value by {
        if rest.Some? {
          var i :| IsFirstMatch(authors[1..], postId, i) && authors[1..][i].username == rest.value;
          assert IsFirstMatch(authors, postId, i + 1);
        }
      }
      rest
  }

  /** The lookup names the author at the lowest matching index, whatever follows it. */
  lemma FindAuthorReturnsFirstMatch(authors: seq<User>, postId: string, i: int)
    requires IsFirstMatch(authors, postId, i)
    ensures FindAuthorByPostId(authors, postId) == Some(authors[i].username)
  {
  }

  /** Searching a concatenation searches the first part and only then the second:
      iteration order decides ties. */
  lemma {:induction false} FindAuthorInConcatenation(a: seq<User>, b: seq<User>, postId: string)
    ensures FindAuthorByPostId(a + b, postId)
         == if FindAuthorByPostId(a, postId).Some? then FindAuthorByPostId(a, postId)
            else FindAuthorByPostId(b, postId)
    decreases |a|
  {
    if |a| == 0 {
      assert a + b == b;
    } else {
      assert (a + b)[0] == a[0];
      assert (a + b)[1..] == a[1..] + b;
      FindAuthorInConcatenation(a[1..], b, postId);
    }
  }

  /** The scan `Array.prototype.find` performs: front to back, stopping at the first
      author whose `postId` is the key. */
  method FindAuthorScan(authors: seq<User>, postId: string) returns (r: Option<string>)
    ensures r == FindAuthorByPostId(authors, postId)
  {
    var i := 0;
    while i < |authors|
      invariant 0 <= i <= |authors|
      invariant forall j :: 0 <= j < i ==> authors[j].postId != postId
    {
      if authors[i].postId == postId {
        FindAuthorReturnsFirstMatch(authors, postId, i);
        return Some(authors[i].username);
      }
      i := i + 1;
    }
    return None;
  }

  /** The name on the card: looked up by the post's own `id`; `post.userId` is not consulted. */
  function CardAuthor(post: Post, users: seq<User>): (r: Option<string>)
    ensures r.Some? <==> exists i :: 0 <= i < |users| && users[i].postId == post.id
    ensures r.Some? ==> exists i :: IsFirstMatch(users, post.id, i) && users[i].username == r.value
  {
    FindAuthorByPostId(users, post.id)
  }

  /** A post whose `userId` names an author record, while no record points back at the
      post, shows no author. */
  lemma ExampleUserIdNotFollowed()
    ensures var users := [User("a1", "nina", "p2")];
      CardAuthor(Post("p1", "", 0, 0, 0, "", "a1"), users) == None
  {
  }

  /** Changing the post's `userId` never changes the name shown. */
  lemma CardAuthorIgnoresUserId(post: Post, users: seq<User>, userId: string)
    ensures CardAuthor(post.(userId := userId), users) == CardAuthor(post, users)
  {
  }

  // ---------------------------------------------------------------------------
  // Relative or absolute date

  /** `1000 * 60 * 60 * 24`: milliseconds in a day. */
  const MsPerDay: int := 1000 * 60 * 60 * 24

  /** Posts less than this many whole days old are shown relative to now. */
  const RelativeDays: int := 7

  /** Which date-fns formatter the card calls, with the date it formats:
      `formatDistanceToNow` (relative) or `format(date, 'dd/MM/yyyy')` (absolute). */
  datatype DateBranch = Relative(date: int) | Absolute(date: int)

  /** `q` is `Math.floor(a / b)`: the greatest integer whose multiple of `b` does not exceed `a`. */
  predicate IsFloorQuotient(q: int, a: int, b: int) {
    q * b <= a < q * b + b
  }

  /** Multiplying by a positive number keeps order. */
  lemma MulMonotone(x: int, y: int, b: int)
    requires x <= y && b > 0
    ensures x * b <= y * b
  {
  }

  /** `Math.floor(a / b)` of JavaScript, which rounds toward negative infinity, is Dafny's
      Euclidean `a / b` for a positive divisor, and nothing else is. */
  lemma JsFloorIsEuclideanDivision(a: int, b: int)
    requires b > 0
    ensures IsFloorQuotient(a / b, a, b)
    ensures forall q :: IsFloorQuotient(q, a, b) ==> q == a / b
  {
    var e := a / b;
    assert e * b + a % b == a && 0 <= a % b < b;
    forall q | IsFloorQuotient(q, a, b)
      ensures q == e
    {
      if q < e {
        assert (q + 1) * b == q * b + b;
        MulMonotone(q + 1, e, b);
      } else if q > e {
        assert (e + 1) * b == e * b + b;
        MulMonotone(e + 1, q, b);
      }
    }
  }

  /** `daysDifference`: whole days from `date` to `now`, both in epoch milliseconds,
      rounded down (negative for dates in the future). */
  function DaysDifference(date: int, now: int): (d: int)
    ensures IsFloorQuotient(d, now - date, MsPerDay)
  {
    JsFloorIsEuclideanDivision(now - date, MsPerDay);
    (now - date) / MsPerDay
  }

  /** `formatDate` with the clock passed in as `now`. */
  function FormatDate(date: int, now: int): (b: DateBranch)
    ensures b.date == date
    ensures b.Relative? <==> now - date < RelativeDays * MsPerDay
  {
    if DaysDifference(date, now) < RelativeDays then Relative(date) else Absolute(date)
  }

  /** One millisecond short of seven days is still relative; exactly seven days is absolute. */
  lemma FormatDateThreshold(date: int, now: int)
    ensures now - date == RelativeDays * MsPerDay - 1 ==> FormatDate(date, now) == Relative(date)
    ensures now - date == RelativeDays * MsPerDay ==> FormatDate(date, now) == Absolute(date)
  {
  }

  /** A date later than now has a negative day difference and is shown relative. */
  lemma FutureDateIsRelative(date: int, now: int)
    requires date > now
    ensures DaysDifference(date, now) < 0
    ensures FormatDate(date, now).Relative?
  {
  }

  /** Once a date is shown as a calendar date, so is every earlier date, and so is the
      same date at every later `now`. */
  lemma AbsoluteIsMonotone(date: int, now: int, earlier: int, later: int)
    requires FormatDate(date, now).Absolute?
    requires earlier <= date && now <= later
    ensures FormatDate(earlier, now).Absolute?
    ensures FormatDate(date, later).Absolute?
  {
  }

  // ---------------------------------------------------------------------------
  // Layout style

  /** The `layoutStyles` object: one entry per mode. */
  datatype LayoutTable = LayoutTable(grid: Style, masonry: Style)

  function LayoutStyles(settings: Settings): (t: LayoutTable)
    ensures t.grid.display == t.masonry.display == Some("grid")
    ensures t.grid.gap == t.masonry.gap == Some("1rem")
    ensures t.grid.gridAutoFlow.None? && t.masonry.gridAutoFlow == Some("dense")
    ensures t.grid != t.masonry
    ensures t.grid.gridTemplateColumns.Some? && t.masonry.gridTemplateColumns.Some?
    ensures ParseRepeatTemplate(t.grid.gridTemplateColumns.value) == Some(settings.layout.params.grid.columns)
    ensures ParseRepeatTemplate(t.masonry.gridTemplateColumns.value) == Some(settings.layout.params.masonry.columns)
  {
    var params := settings.layout.params;
    LayoutTable(
      grid := Style(Some("grid"), Some(RepeatTemplate(params.grid.columns)), Some("1rem"), None),
      masonry := Style(Some("grid"), Some(RepeatTemplate(params.masonry.columns)), Some("1rem"), Some("dense")))
  }

  /** The entry spread into the card's style. The card dereferences `settings`, so it
      needs settings to be present. */
  function CardLayoutStyle(settings: Option<Settings>): (r: Style)
    requires settings.Some?
    ensures var s := settings.value;
      && (r == LayoutStyles(s).grid <==> s.layout.current == GridMode)
      && (r == LayoutStyles(s).masonry <==> s.layout.current != GridMode)
      && (r.gridAutoFlow.None? <==> s.layout.current == GridMode)
      && (r.gridAutoFlow.Some? ==> r.gridAutoFlow.value == "dense")
      && r.display == Some("grid") && r.gap == Some("1rem")
      && r.gridTemplateColumns.Some?
      && ParseRepeatTemplate(r.gridTemplateColumns.value) == Some(ActiveParams(s.layout).columns)
  {
    var s := settings.value;
    var table := LayoutStyles(s);
    if s.layout.current == GridMode then table.grid else table.masonry
  }

  /** How rendering a component ends: with a value, or with the `TypeError` JavaScript
      raises when a property of `undefined` is read. */
  datatype Rendering<T> = Returned(value: T) | TypeError

  /** The card's layout entry as the code computes it for every value the card can receive:
      building `layoutStyles` reads `settings.layout`, which throws while settings are
      undefined. */
  function CardLayoutAsWritten(settings: Option<Settings>): (r: Rendering<Style>)
    ensures r.TypeError? <==> settings.None?
    ensures r.Returned? ==> r.value.display == Some("grid") && r.value.gap == Some("1rem")
    ensures r.Returned? ==> (r.value.gridAutoFlow.None? <==> settings.value.layout.current == GridMode)
    ensures r.Returned? ==> (r.value.gridAutoFlow.Some? ==> r.value.gridAutoFlow.value == "dense")
    ensures r.Returned? ==> (r.value.gridTemplateColumns.Some?
      && ParseRepeatTemplate(r.value.gridTemplateColumns.value) == Some(ActiveParams(settings.value.layout).columns))
  {
    match settings
    case None => TypeError
    case Some(_) => Returned(CardLayoutStyle(settings))
  }

  /** The card guarded the way the container already is: no layout properties while settings
      are undefined, the selected entry once they are present. */
  function CardLayoutGuarded(settings: Option<Settings>): (r: Style)
    ensures settings.None? ==> r == Empty
    ensures settings.Some? ==> CardLayoutAsWritten(settings) == Returned(r)
  {
    match settings
    case None => Empty
    case Some(_) => CardLayoutStyle(settings)
  }
}
