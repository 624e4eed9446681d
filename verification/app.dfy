/**
 * The top-level shell: the favourites view, which joins the favourite ids
 * against the live catalogue, and the bottom-navigation tab selector.
 */
module App {
  import opened Types
  import opened Seqs
  import Provider

  /** `favMeds`: the catalogue entries whose id is a favourite, in catalogue order. */
  function FavMeds(medicines: seq<Medicine>, favorites: set<string>): (r: seq<Medicine>)
    ensures |r| <= |medicines|
    ensures IsSubsequence(r, medicines)
    ensures forall m :: m in r <==> m in medicines && m.id in favorites
  {
    Filter(medicines, (m: Medicine) => m.id in favorites)
  }

  /** The badge of the favourites view: the number of entries it shows. */
  function FavoriteCount(medicines: seq<Medicine>, favorites: set<string>): (n: nat)
    ensures n == |FavMeds(medicines, favorites)| && n <= |medicines|
    ensures n == 0 <==> forall m :: m in medicines ==> m.id !in favorites
  {
    |FavMeds(medicines, favorites)|
  }

  /** Favourite ids that name no medicine (deleted ones, say) change nothing in the view. */
  lemma {:induction false} OrphanFavoritesIgnored(medicines: seq<Medicine>, favorites: set<string>, orphans: set<string>)
    requires forall m :: m in medicines ==> m.id !in orphans
    ensures FavMeds(medicines, favorites + orphans) == FavMeds(medicines, favorites)
    ensures FavMeds(medicines, favorites - orphans) == FavMeds(medicines, favorites)
  {
    Seqs.FilterCongruent(medicines, (m: Medicine) => m.id in favorites + orphans, (m: Medicine) => m.id in favorites);
    Seqs.FilterCongruent(medicines, (m: Medicine) => m.id in favorites - orphans, (m: Medicine) => m.id in favorites);
  }

  /** Toggling a medicine's id shows it in the favourites view exactly when it was not shown before. */
  lemma ToggleShowsOrHides(s: Provider.State, m: Medicine)
    requires m in s.medicines
    ensures m in FavMeds(Provider.ToggleFavorite(s, m.id).medicines, Provider.ToggleFavorite(s, m.id).favorites)
      <==> m !in FavMeds(s.medicines, s.favorites)
  {
  }

  // ---------------------------------------------------------------------------
  // Navigation

  datatype Tab = HomeTab | FavTab | ChatTab | AdminTab

  datatype View = HomeView | FavoritesView | ChatView | AdminView

  /** The view each tab is meant to show. */
  function ViewFor(t: Tab): View
  {
    match t
    case HomeTab => HomeView
    case FavTab => FavoritesView
    case ChatTab => ChatView
    case AdminTab => AdminView
  }

  /** The tab shown when the application opens. */
  const InitialTab: Tab := HomeTab

  /** The content area: four guarded views, each rendered when the active tab equals its own. */
  function RenderedViews(active: Tab): (r: seq<View>)
    ensures r == [ViewFor(active)]
  {
    (if active == HomeTab then [HomeView] else [])
    + (if active == FavTab then [FavoritesView] else [])
    + (if active == ChatTab then [ChatView] else [])
    + (if active == AdminTab then [AdminView] else [])
  }

  /** The application opens on the catalogue view. */
  lemma InitialTabShowsHome()
    ensures RenderedViews(InitialTab) == [HomeView]
  {
  }

  /** Different tabs render different views. */
  lemma TabsRenderDistinctViews(t: Tab, u: Tab)
    ensures RenderedViews(t) == RenderedViews(u) ==> t == u
  {
    assert RenderedViews(t)[0] == ViewFor(t);
  }
}
