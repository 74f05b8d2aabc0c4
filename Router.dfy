/**
  * The router (`src/router/index.ts`): the route table with each route's
  * `requiresAuth` flag, and the global `beforeEach` guard that sends
  * unauthenticated visitors to the login page and authenticated visitors
  * away from it.
  */
module Router {
  import opened Wrappers

  datatype Route = Route(path: string, name: string, requiresAuth: bool)

  // The route table in declaration order, one group per resource.

  const EntryRoutes: seq<Route> := [
    Route("/", "home", true),
    Route("/login", "login", false)
  ]

  const ItemsRoutes: seq<Route> := [
    Route("/items", "items", true),
    Route("/items/:id", "item-detail", true)
  ]

  const PartnersRoutes: seq<Route> := [
    Route("/partners", "partners", true),
    Route("/partners/:id", "partner-detail", true)
  ]

  const ProjectsRoutes: seq<Route> := [
    Route("/projects", "projects", true),
    Route("/projects/:id", "project-detail", true)
  ]

  const TagsRoutes: seq<Route> := [
    Route("/tags", "tags", true),
    Route("/tags/:id", "tag-detail", true)
  ]

  const PicturesRoutes: seq<Route> := [
    Route("/pictures", "pictures", true),
    Route("/pictures/:id", "picture-detail", true)
  ]

  const CountriesRoutes: seq<Route> := [
    Route("/countries", "countries", true),
    Route("/countries/:id", "country-detail", true)
  ]

  const LanguagesRoutes: seq<Route> := [
    Route("/languages", "languages", true),
    Route("/languages/:id", "language-detail", true)
  ]

  const ContextsRoutes: seq<Route> := [
    Route("/contexts", "contexts", true),
    Route("/contexts/:id", "context-detail", true)
  ]

  const ImageUploadsRoutes: seq<Route> := [
    Route("/image-uploads", "image-uploads", true),
    Route("/image-uploads/:id", "image-upload-detail", true)
  ]

  const AddressesRoutes: seq<Route> := [
    Route("/addresses", "addresses", true),
    Route("/addresses/new", "address-create", true),
    Route("/addresses/:id", "address-detail", true),
    Route("/addresses/:id/edit", "address-edit", true)
  ]

  const ContactsRoutes: seq<Route> := [
    Route("/contacts", "contacts", true),
    Route("/contacts/new", "contact-create", true),
    Route("/contacts/:id", "contact-detail", true),
    Route("/contacts/:id/edit", "contact-edit", true)
  ]

  const AvailableImagesRoutes: seq<Route> := [
    Route("/available-images", "available-images", true),
    Route("/available-images/:id", "available-image-detail", true)
  ]

  const DetailsRoutes: seq<Route> := [
    Route("/details", "details", true),
    Route("/details/new", "detail-create", true),
    Route("/details/:id", "detail-detail", true),
    Route("/details/:id/edit", "detail-edit", true)
  ]

  const AuthorsRoutes: seq<Route> := [
    Route("/authors", "authors", true),
    Route("/authors/new", "author-create", true),
    Route("/authors/:id", "author-detail", true),
    Route("/authors/:id/edit", "author-edit", true)
  ]

  const ArtistsRoutes: seq<Route> := [
    Route("/artists", "artists", true),
    Route("/artists/new", "artist-create", true),
    Route("/artists/:id", "artist-detail", true),
    Route("/artists/:id/edit", "artist-edit", true)
  ]

  const WorkshopsRoutes: seq<Route> := [
    Route("/workshops", "workshops", true),
    Route("/workshops/new", "workshop-create", true),
    Route("/workshops/:id", "workshop-detail", true),
    Route("/workshops/:id/edit", "workshop-edit", true)
  ]

  /** The first 20 routes, in declaration order. */
  const EarlyRoutes: seq<Route> :=
    EntryRoutes
    + ItemsRoutes
    + PartnersRoutes
    + ProjectsRoutes
    + TagsRoutes
    + PicturesRoutes
    + CountriesRoutes
    + LanguagesRoutes
    + ContextsRoutes
    + ImageUploadsRoutes

  /** The other 26 routes, in declaration order. */
  const LaterRoutes: seq<Route> :=
    AddressesRoutes
    + ContactsRoutes
    + AvailableImagesRoutes
    + DetailsRoutes
    + AuthorsRoutes
    + ArtistsRoutes
    + WorkshopsRoutes

  /** All 46 routes, in declaration order. */
  const Routes: seq<Route> := EarlyRoutes + LaterRoutes

  const LoginRoute := Route("/login", "login", false)
  const HomeRoute := Route("/", "home", true)

  /** What the guard does: let the navigation through or redirect it. */
  datatype Decision = Proceed | Redirect(path: string)

  /** `beforeEach` for a navigation to `to` (None when no route matched, so it
    * has no meta and no name). */
  function Guard(to: Option<Route>, isAuthenticated: bool): (d: Decision)
    ensures d == Redirect("/login") <==> to.Some? && to.value.requiresAuth && !isAuthenticated
    ensures d == Redirect("/") <==>
              !(to.Some? && to.value.requiresAuth && !isAuthenticated)
              && to.Some? && to.value.name == "login" && isAuthenticated
    ensures d.Redirect? ==> d.path == "/login" || d.path == "/"
  {
    if to.Some? && to.value.requiresAuth && !isAuthenticated then Redirect("/login")
    else if to.Some? && to.value.name == "login" && isAuthenticated then Redirect("/")
    else Proceed
  }

  /** No route but the login route is open without authentication. */
  predicate OnlyLoginPublic(routes: seq<Route>)
  {
    forall r :: r in routes && !r.requiresAuth ==> r == LoginRoute
  }

  lemma {:induction false} OnlyLoginPublicConcat(routes: seq<Route>, group: seq<Route>)
    requires OnlyLoginPublic(routes) && OnlyLoginPublic(group)
    ensures OnlyLoginPublic(routes + group)
  {
  }

  /** The two redirect targets are declared routes. */
  lemma RedirectTargetsDeclared()
    ensures LoginRoute in Routes && HomeRoute in Routes
  {
    assert LoginRoute in EntryRoutes && HomeRoute in EntryRoutes;
  }

  lemma EarlyRoutesOnlyLogin()
    ensures OnlyLoginPublic(EarlyRoutes)
  {
    var routes := EntryRoutes;
    OnlyLoginPublicConcat(routes, ItemsRoutes);
    routes := routes + ItemsRoutes;
    OnlyLoginPublicConcat(routes, PartnersRoutes);
    routes := routes + PartnersRoutes;
    OnlyLoginPublicConcat(routes, ProjectsRoutes);
    routes := routes + ProjectsRoutes;
    OnlyLoginPublicConcat(routes, TagsRoutes);
    routes := routes + TagsRoutes;
    OnlyLoginPublicConcat(routes, PicturesRoutes);
    routes := routes + PicturesRoutes;
    OnlyLoginPublicConcat(routes, CountriesRoutes);
    routes := routes + CountriesRoutes;
    OnlyLoginPublicConcat(routes, LanguagesRoutes);
    routes := routes + LanguagesRoutes;
    OnlyLoginPublicConcat(routes, ContextsRoutes);
    routes := routes + ContextsRoutes;
    OnlyLoginPublicConcat(routes, ImageUploadsRoutes);
    routes := routes + ImageUploadsRoutes;
    assert routes == EarlyRoutes;
  }

  lemma LaterRoutesOnlyLogin()
    ensures OnlyLoginPublic(LaterRoutes)
  {
    var routes := AddressesRoutes;
    OnlyLoginPublicConcat(routes, ContactsRoutes);
    routes := routes + ContactsRoutes;
    OnlyLoginPublicConcat(routes, AvailableImagesRoutes);
    routes := routes + AvailableImagesRoutes;
    OnlyLoginPublicConcat(routes, DetailsRoutes);
    routes := routes + DetailsRoutes;
    OnlyLoginPublicConcat(routes, AuthorsRoutes);
    routes := routes + AuthorsRoutes;
    OnlyLoginPublicConcat(routes, ArtistsRoutes);
    routes := routes + ArtistsRoutes;
    OnlyLoginPublicConcat(routes, WorkshopsRoutes);
    routes := routes + WorkshopsRoutes;
    assert routes == LaterRoutes;
  }

  /** The login route is the only one an unauthenticated visitor may open. */
  lemma LoginIsTheOnlyPublicRoute()
    ensures OnlyLoginPublic(Routes)
  {
    EarlyRoutesOnlyLogin();
    LaterRoutesOnlyLogin();
    OnlyLoginPublicConcat(EarlyRoutes, LaterRoutes);
  }

  /** Every route but login sends an unauthenticated visitor to the login page. */
  lemma {:induction false} ProtectedRoutesRedirect(r: Route)
    requires r in Routes && r != LoginRoute
    ensures Guard(Some(r), false) == Redirect("/login")
  {
    LoginIsTheOnlyPublicRoute();
  }

  /** Neither redirect is redirected again: the login route admits the
    * unauthenticated visitor sent there, home admits the authenticated one. */
  lemma {:induction false} NoRedirectLoop(to: Option<Route>, isAuthenticated: bool)
    ensures LoginRoute in Routes && HomeRoute in Routes
    ensures Guard(to, isAuthenticated) == Redirect(LoginRoute.path) ==> Guard(Some(LoginRoute), isAuthenticated) == Proceed
    ensures Guard(to, isAuthenticated) == Redirect(HomeRoute.path) ==> Guard(Some(HomeRoute), isAuthenticated) == Proceed
  {
    RedirectTargetsDeclared();
    assert HomeRoute.name != "login";
  }
}
