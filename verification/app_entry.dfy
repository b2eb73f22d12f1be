/** The application container: the style it derives from the settings snapshot, and how a
    settings response replaces that snapshot. */
module AppEntry {
  import opened Wrappers
  import opened Entities
  import opened CssStyle
  import PostCard
  import Decimal

  /** `layoutStyles` of the container: `{}` while settings are absent, otherwise the grid
      object when `current === 'grid'` and the masonry object for every other string. */
  function ContainerStyle(settings: Option<Settings>): (r: Style)
    ensures r == Empty <==> settings.None?
    ensures settings.Some? ==> var s := settings.value;
      && r.display == Some("grid") && r.gap == Some("1rem")
      && (r.gridAutoFlow.None? <==> s.layout.current == GridMode)
      && (s.layout.current != GridMode ==> r.gridAutoFlow == Some("dense"))
      && r.gridTemplateColumns.Some?
      && ParseRepeatTemplate(r.gridTemplateColumns.value) == Some(ActiveParams(s.layout).columns)
  {
    match settings
    case None => Empty
    case Some(s) =>
      var params := s.layout.params;
      if s.layout.current == GridMode then
        Style(Some("grid"), Some(RepeatTemplate(params.grid.columns)), Some("1rem"), None)
      else
        Style(Some("grid"), Some(RepeatTemplate(params.masonry.columns)), Some("1rem"), Some("dense"))
  }

  /** The container and every card, given the same present settings, carry the same layout. */
  lemma ContainerAgreesWithCard(s: Settings)
    ensures ContainerStyle(Some(s)) == PostCard.CardLayoutStyle(Some(s))
  {
  }

  /** Only whether the mode is "grid" and the active mode's column count matter: the other
      mode's parameters, both `rows`, `template` and `navigation` can change freely. */
  lemma ContainerStyleDependsOnlyOnActiveColumns(s1: Settings, s2: Settings)
    requires (s1.layout.current == GridMode) == (s2.layout.current == GridMode)
    requires ActiveParams(s1.layout).columns == ActiveParams(s2.layout).columns
    ensures ContainerStyle(Some(s1)) == ContainerStyle(Some(s2))
  {
  }

  /** Conversely, the style reveals the mode class and the active column count. */
  lemma ContainerStyleDeterminesActiveColumns(s1: Settings, s2: Settings)
    requires ContainerStyle(Some(s1)) == ContainerStyle(Some(s2))
    ensures (s1.layout.current == GridMode) == (s2.layout.current == GridMode)
    ensures ActiveParams(s1.layout).columns == ActiveParams(s2.layout).columns
  {
  }

  /** The three pieces of state the app holds. */
  datatype AppState = AppState(posts: seq<Post>, users: seq<User>, settings: Option<Settings>)

  /** A settings request completing: `Some(data)` when the response parsed, and then
      `setSettings(data)` replaces the snapshot wholesale; `None` when the request or the
      parse threw, and then the error is only logged. */
  function ReceiveSettings(state: AppState, response: Option<Settings>): (r: AppState)
    ensures r.posts == state.posts && r.users == state.users
    ensures response.Some? ==> r.settings == response
    ensures response.None? ==> r == state
    ensures response.Some? ==> ContainerStyle(r.settings) == ContainerStyle(response) != Empty
    ensures response.None? ==> ContainerStyle(r.settings) == ContainerStyle(state.settings)
  {
    match response
    case None => state
    case Some(_) => state.(settings := response)
  }

  /** Three grid columns, as the settings endpoint might send them. */
  lemma ExampleThreeGridColumns()
    ensures var s := Settings(Layout("grid", LayoutParams(ModeParams(3, 2), ModeParams(4, 1))), "", LoadMore);
      ContainerStyle(Some(s)) == Style(Some("grid"), Some("repeat(3, 1fr)"), Some("1rem"), None)
  {
    assert Decimal.FromNat(3) == "3";
    assert RepeatTemplate(3) == "repeat(3, 1fr)";
  }

  /** The layout part of each card `App` renders: one card per post, every card handed the
      current settings snapshot, whether or not it has arrived. Some card throws exactly when
      there are posts but no settings; a card that renders carries the container's style. */
  function CardLayoutsAsWritten(state: AppState): (r: seq<PostCard.Rendering<Style>>)
    ensures |r| == |state.posts|
    ensures (exists i :: 0 <= i < |r| && r[i].TypeError?) <==> |state.posts| > 0 && state.settings.None?
    ensures forall i :: 0 <= i < |r| && r[i].Returned? ==> r[i].value == ContainerStyle(state.settings)
  {
    var r := seq(|state.posts|, _ => PostCard.CardLayoutAsWritten(state.settings));
    if state.settings.Some? then
      ContainerAgreesWithCard(state.settings.value);
      r
    else
      assert |r| > 0 ==> r[0].TypeError?;
      r
  }

  /** The three requests complete in any order. When the posts response lands before the
      settings response, the next render throws. */
  lemma PostsBeforeSettingsThrow(post: Post)
    ensures var state := ReceivePosts(AppState([], [], None), Some([post]));
      && state.settings.None?
      && exists i :: 0 <= i < |CardLayoutsAsWritten(state)| && CardLayoutsAsWritten(state)[i].TypeError?
  {
    var state := ReceivePosts(AppState([], [], None), Some([post]));
    assert |state.posts| == 1 && state.settings.None?;
    var cards := CardLayoutsAsWritten(state);
    assert exists i :: 0 <= i < |cards| && cards[i].TypeError?;
  }

  /** A posts request completing, by analogy with `ReceiveSettings`. */
  function ReceivePosts(state: AppState, response: Option<seq<Post>>): (r: AppState)
    ensures r.users == state.users && r.settings == state.settings
    ensures response.Some? ==> r.posts == response.value
    ensures response.None? ==> r == state
  {
    match response
    case None => state
    case Some(posts) => state.(posts := posts)
  }

  /** Each card's layout with the guarded card. Rendering never throws, and every card
      carries exactly the container's style, in every order the responses can arrive in,
      before settings arrive included. */
  function CardLayoutsGuarded(state: AppState): (r: seq<Style>)
    ensures |r| == |state.posts|
    ensures forall i :: 0 <= i < |r| ==> r[i] == ContainerStyle(state.settings)
  {
    var r := seq(|state.posts|, _ => PostCard.CardLayoutGuarded(state.settings));
    if state.settings.Some? then
      ContainerAgreesWithCard(state.settings.value);
      r
    else
      r
  }
}
