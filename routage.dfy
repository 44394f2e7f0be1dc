/**
 * OpenLearn's router: the static route table, the rule for intercepting link
 * clicks, the anchor-or-page decision of `naviguerVers`, the redirect rule of
 * `changerPage`, the navigation-link highlight, the fragment load of
 * `chargerPage` and the sign-in/sign-up form toggle.
 *
 * The document is abstracted: the ids present are a set, the elements the
 * highlight touches an array of records, the fetched response an input.
 */
module Routage {
  import opened Options

  const PageAccueil := "index.html"
  const PageAuthentification := "authentification.html"

  /** The `routes` table. */
  const Routes: map<string, string> := map[
    "/" := "index.html",
    "/accueil" := "index.html",
    "/parcours" := "parcours.html",
    "/formations" := "formations.html",
    "/authentification" := "authentification.html",
    "/contact" := "contact.html"
  ]

  /** The page the back/forward handler loads: `routes[chemin] || 'index.html'`. */
  function PageDuChemin(chemin: string): string {
    if chemin in Routes then Routes[chemin] else PageAccueil
  }

  /** The table's six paths go to their files, both home paths to the home page,
      and every other path falls back to the home page. */
  lemma PageDuCheminTable(chemin: string)
    ensures PageDuChemin("/") == PageAccueil && PageDuChemin("/accueil") == PageAccueil
    ensures PageDuChemin("/parcours") == "parcours.html"
    ensures PageDuChemin("/formations") == "formations.html"
    ensures PageDuChemin("/authentification") == PageAuthentification
    ensures PageDuChemin("/contact") == "contact.html"
    ensures chemin !in {"/", "/accueil", "/parcours", "/formations", "/authentification", "/contact"} ==>
              PageDuChemin(chemin) == PageAccueil
    ensures PageDuChemin(chemin) in {PageAccueil, "parcours.html", "formations.html", PageAuthentification, "contact.html"}
  {
  }

  /** What a click on a link does. */
  datatype Clic = ParDefaut | Intercepte(destination: string)

  /** An in-page anchor: a destination starting with "#". */
  predicate EstAncre(s: string) {
    |s| > 0 && s[0] == '#'
  }

  /** Only links whose href starts with "#" get the listener, and it lets a bare
      "#" keep the browser's behaviour. */
  function SurClicLien(href: string): (c: Clic)
    ensures c.Intercepte? <==> EstAncre(href) && href != "#"
    ensures c.Intercepte? ==> c.destination == href
  {
    if EstAncre(href) && href != "#" then Intercepte(href) else ParDefaut
  }

  /** The visible effect of a navigation. `Defilement(id)` scrolls to element
      `id` and highlights the links to "#id". */
  datatype Effet = Rien | Defilement(id: string) | Redirection(url: string)

  /** `changerPage`: the empty page and "authentification" go to the
      authentication page (`afficherAuthentification`), anything else is the new
      location as given. */
  function ChangerPage(page: string): (url: string)
    ensures url != ""
    ensures page == "" || page == "authentification" ==> url == PageAuthentification
    ensures page != "" && page != "authentification" ==> url == page
  {
    if page == "" || page == "authentification" then PageAuthentification else page
  }

  /** Redirecting twice goes where redirecting once goes. */
  lemma ChangerPageStable(page: string)
    ensures ChangerPage(ChangerPage(page)) == ChangerPage(page)
    ensures page != "" && page != "authentification" ==> ChangerPage(page) == page
  {
  }

  /** `scrollVers`: only an element that exists is scrolled to. */
  function ScrollVers(id: string, ids: set<string>): (e: Effet)
    ensures e.Defilement? <==> id in ids
    ensures e != Rien ==> e == Defilement(id)
  {
    if id in ids then Defilement(id) else Rien
  }

  /** `naviguerVers`: an anchor scrolls when its element exists and otherwise
      does nothing; anything else changes page. */
  function NaviguerVers(destination: string, ids: set<string>): (e: Effet)
    ensures EstAncre(destination) ==> !e.Redirection?
    ensures e.Defilement? <==> EstAncre(destination) && destination[1..] in ids
    ensures e.Defilement? ==> destination == "#" + e.id
    ensures !EstAncre(destination) ==> e == Redirection(ChangerPage(destination))
  {
    if EstAncre(destination) then
      if destination[1..] in ids then ScrollVers(destination[1..], ids) else Rien
    else Redirection(ChangerPage(destination))
  }

  /** A click the listener intercepts never reloads the page; a click on a
      missing anchor has no effect at all. */
  lemma ClicSansRechargement(href: string, ids: set<string>)
    ensures SurClicLien(href).Intercepte? ==> !NaviguerVers(SurClicLien(href).destination, ids).Redirection?
    ensures SurClicLien(href).Intercepte? && href[1..] !in ids ==>
              NaviguerVers(SurClicLien(href).destination, ids) == Rien
  {
  }

  // ---------------------------------------------------------------------------
  // Navigation highlight (mettreAJourNavigation)
  // ---------------------------------------------------------------------------

  /** An element of the page as the highlight sees it: whether it is an `a`
      element, whether it has class `nav-link`, its `href` attribute, and
      whether it has class `actif`. */
  datatype Element = Element(estLien: bool, navLink: bool, href: Option<string>, actif: bool)

  /** `a[href="ancre"]` */
  predicate Designe(x: Element, ancre: string) {
    x.estLien && x.href == Some(ancre)
  }

  /** `document.querySelector('a[href="ancre"]')`: the first element in document
      order that matches, or `|s|` when none does. */
  function PremierLien(s: seq<Element>, ancre: string): (j: nat)
    ensures j <= |s|
    ensures j < |s| ==> Designe(s[j], ancre)
    ensures forall k :: 0 <= k < j ==> !Designe(s[k], ancre)
  {
    if s == [] then 0
    else if Designe(s[0], ancre) then 0
    else 1 + PremierLien(s[1..], ancre)
  }

  /** `nav-link` elements lose `actif`; others are unchanged. */
  function Eteint(x: Element): Element {
    if x.navLink then x.(actif := false) else x
  }

  /** The page after `mettreAJourNavigation(ancre)`. */
  function ApresNavigation(s: seq<Element>, ancre: string): seq<Element> {
    var j := PremierLien(s, ancre);
    seq(|s|, k requires 0 <= k < |s| => if k == j then s[k].(actif := true) else Eteint(s[k]))
  }

  /**
   * After the highlight, no `nav-link` keeps `actif` unless it is the first
   * link to the anchor; that link, when there is one, has `actif`; at most one
   * element gains `actif`; no attribute other than `actif` changes; and an
   * element that is neither a `nav-link` nor that link keeps its `actif`.
   */
  lemma NavigationUnSeulActif(s: seq<Element>, ancre: string)
    ensures var r := ApresNavigation(s, ancre);
      && |r| == |s|
      && (forall k :: 0 <= k < |r| && r[k].navLink && r[k].actif ==> k == PremierLien(s, ancre))
      && (PremierLien(s, ancre) < |s| ==> r[PremierLien(s, ancre)].actif)
      && (forall j, k :: 0 <= j < |s| && 0 <= k < |s| && !s[j].actif && r[j].actif && !s[k].actif && r[k].actif
            ==> j == k)
      && (forall k :: 0 <= k < |s| ==> r[k].(actif := s[k].actif) == s[k])
      && (forall k :: 0 <= k < |s| && k != PremierLien(s, ancre) && !s[k].navLink ==> r[k] == s[k])
  {
  }

  /** Highlighting the same anchor again changes nothing, so the second highlight
      that `scrollVers` schedules after its delay leaves the page as the first
      one did. */
  lemma {:induction false} NavigationIdempotente(s: seq<Element>, ancre: string)
    ensures ApresNavigation(ApresNavigation(s, ancre), ancre) == ApresNavigation(s, ancre)
  {
    var r := ApresNavigation(s, ancre);
    assert forall k :: 0 <= k < |s| ==> Designe(r[k], ancre) == Designe(s[k], ancre);
    PremiersLiensEgaux(r, s, ancre);
  }

  /** `mettreAJourNavigation`: remove `actif` from every `nav-link`, then add it
      to the first link whose href is the anchor. */
  method MettreAJourNavigation(elements: array<Element>, ancre: string)
    modifies elements
    ensures elements[..] == ApresNavigation(old(elements[..]), ancre)
  {
    var i := 0;
    while i < elements.Length
      invariant 0 <= i <= elements.Length
      invariant forall k :: 0 <= k < i ==> elements[k] == Eteint(old(elements[k]))
      invariant forall k :: i <= k < elements.Length ==> elements[k] == old(elements[k])
    {
      if elements[i].navLink {
        elements[i] := elements[i].(actif := false);
      }
      i := i + 1;
    }
    ghost var avant := old(elements[..]);
    assert forall k :: 0 <= k < elements.Length ==> Designe(elements[..][k], ancre) == Designe(avant[k], ancre);
    PremiersLiensEgaux(elements[..], avant, ancre);
    var j := PremierLien(elements[..], ancre);
    if j < elements.Length {
      elements[j] := elements[j].(actif := true);
    }
  }

  /** Two pages whose elements match the anchor at the same places have the same first match. */
  lemma {:induction false} PremiersLiensEgaux(s: seq<Element>, t: seq<Element>, ancre: string)
    requires |s| == |t|
    requires forall k :: 0 <= k < |s| ==> Designe(s[k], ancre) == Designe(t[k], ancre)
    ensures PremierLien(s, ancre) == PremierLien(t, ancre)
  {
    if s != [] {
      PremiersLiensEgaux(s[1..], t[1..], ancre);
    }
  }

  // ---------------------------------------------------------------------------
  // Fragment load (chargerPage) and back/forward
  // ---------------------------------------------------------------------------

  /** The outcome of `fetch(page)`: a response with its status and body text, or a thrown error. */
  datatype Reponse = Reponse(statut: int, html: string) | EchecReseau

  /** `response.ok`: a status in 200-299. */
  predicate ReponseOk(r: Reponse) {
    r.Reponse? && 200 <= r.statut <= 299
  }

  /** The window's document body and its history stack. */
  class Fenetre {
    var corps: string
    var historique: seq<string>

    constructor (corps: string, historique: seq<string>)
      ensures this.corps == corps && this.historique == historique
    {
      this.corps := corps;
      this.historique := historique;
    }

    /** `chargerPage`: on an ok response replace the body and push exactly one
        history entry; on a non-ok response or an error change nothing. */
    method ChargerPage(page: string, reponse: Reponse)
      modifies this
      ensures ReponseOk(reponse) ==> corps == reponse.html && historique == old(historique) + [page]
      ensures !ReponseOk(reponse) ==> corps == old(corps) && historique == old(historique)
    {
      if !ReponseOk(reponse) {
        return;
      }
      corps := reponse.html;
      historique := historique + [page];
    }

    /** The `popstate` listener: load the page of the current path. */
    method SurPopstate(chemin: string, reponse: Reponse)
      modifies this
      ensures ReponseOk(reponse) ==> corps == reponse.html && historique == old(historique) + [PageDuChemin(chemin)]
      ensures !ReponseOk(reponse) ==> corps == old(corps) && historique == old(historique)
    {
      ChargerPage(PageDuChemin(chemin), reponse);
    }
  }

  // ---------------------------------------------------------------------------
  // Form toggle (basculerFormulaire)
  // ---------------------------------------------------------------------------

  /** Both forms' `formulaire-actif` class flips, provided both forms exist;
      `None` is a missing form. */
  function Basculer(connexion: Option<bool>, inscription: Option<bool>): (Option<bool>, Option<bool>) {
    if connexion.Some? && inscription.Some? then (Some(!connexion.value), Some(!inscription.value))
    else (connexion, inscription)
  }

  /** Both forms exist and exactly one of them is active. */
  predicate UnSeulActif(connexion: Option<bool>, inscription: Option<bool>) {
    connexion.Some? && inscription.Some? && connexion.value != inscription.value
  }

  /** Toggling twice restores the forms; toggling keeps exactly one form active;
      with a form missing nothing changes. */
  lemma BasculerProprietes(connexion: Option<bool>, inscription: Option<bool>)
    ensures var (c, i) := Basculer(connexion, inscription); Basculer(c, i) == (connexion, inscription)
    ensures UnSeulActif(connexion, inscription) ==> UnSeulActif(Basculer(connexion, inscription).0, Basculer(connexion, inscription).1)
    ensures connexion.None? || inscription.None? ==> Basculer(connexion, inscription) == (connexion, inscription)
  {
  }

  /** The authentication page's two forms. */
  class PageConnexion {
    var connexion: Option<bool>
    var inscription: Option<bool>

    constructor (connexion: Option<bool>, inscription: Option<bool>)
      ensures this.connexion == connexion && this.inscription == inscription
    {
      this.connexion := connexion;
      this.inscription := inscription;
    }

    /** `basculerFormulaire` */
    method BasculerFormulaire()
      modifies this
      ensures (connexion, inscription) == Basculer(old(connexion), old(inscription))
    {
      if connexion.Some? && inscription.Some? {
        connexion := Some(!connexion.value);
        inscription := Some(!inscription.value);
      }
    }
  }
}
