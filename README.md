# OpenLearn client logic in Dafny

OpenLearn is a course-enrolment website whose behaviour lives in three browser
scripts. This project models the decision logic of those scripts and proves what
they promise:

- **Validation** (`validation.dfy`, from `app.js`): `validerEmail` and
  `validerMotDePasse` are executable predicates. Each is proved equal, on every
  string, to the regular expression it applies, which is written out as a
  predicate over positions. JavaScript's `\s` and the line terminators excluded
  by `.` are listed in full.
- **Session** (`session.dfy`, from `app.js`): local storage is a
  `map<string, Valeur>`. The keys `utilisateur`, `messages` and `panier` hold
  typed records. Each form handler is an ordered list of checks. `PremierEchec`
  reports the first one that fails. The pure functions `Connexion`, `Inscription`
  and `Contact` return `Erreur(message)` or `Succes(new store)`. The class
  `StockageLocal` holds the map. Its methods follow the handlers' early-return
  chains, write the store, and are proved to agree with the functions. The
  cart functions add by identifier without duplicates and remove by filtering.
- **Routage** (`routage.dfy`, from `routing.js`): the six-entry route table and
  its fallback, the link-interception rule, `naviguerVers`, `changerPage`,
  `scrollVers`, the navigation highlight (a loop over an array of elements),
  `chargerPage` on a window holding the body and the history, and
  `basculerFormulaire` on the two forms' flags.
- **Animations** (`animations.dfy`, from `animations.js`): the FAQ accordion,
  the course filter, the input focus classes and the statistic counters. The
  handlers that walk a collection are loops over an array of element records,
  and the observer callback is a loop over its batch of observations. Each is
  proved against a function of the old state. The single-element handlers
  (focus, blur) and the counter's final text are not loops.

Timestamps, the fetched response, the ids present in the page and the values
of form fields are parameters. Timers are not modelled: a state is the one
reached after every pending timer has fired.

The navigation highlight uses the class `actif`. `naviguerVers` highlights the
link at once (routing.js:48), and `scrollVers` highlights it again after
300 ms (routing.js:95). `NavigationIdempotente` shows that the second highlight
leaves the page as the first one did.

## Model

| member | source | states |
|---|---|---|
| Validation.ValiderEmail | OpenLearn/js/app.js:217-220 | `validerEmail` as an executable predicate over the address; what it accepts is stated by `ValiderEmailRegex` and `ValiderEmailParties` |
| Validation.ValiderMotDePasse | OpenLearn/js/app.js:227-231 | `validerMotDePasse` as an executable predicate; what it accepts is stated by `ValiderMotDePasseRegex` |
| Validation.ValiderEmailRegex | OpenLearn/js/app.js:217-220 | `validerEmail` holds exactly when `^[^\s@]+@[^\s@]+\.[^\s@]+$` matches the whole string |
| Validation.ValiderEmailParties | OpenLearn/js/app.js:217-220 | accepted iff no white space, exactly one "@", a non-empty part before it, and a "." strictly inside the part after it |
| Validation.ExemplesEmail | OpenLearn/js/app.js:218 | the expression accepts "a@b.co" and rejects "a@b", "@b.co" and "a.b.co" |
| Validation.ValiderMotDePasseRegex | OpenLearn/js/app.js:227-231 | `validerMotDePasse` holds exactly when `^(?=.*[A-Z])(?=.*\d).{8,}$` matches: at least 8 characters, no line terminator, an ASCII capital and an ASCII digit |
| Validation.ExemplesMotDePasse | OpenLearn/js/app.js:229 | "Abcdefg1" and "ABCDEFG1" pass; "abcdefg1" (no capital) and "Abc1" (too short) fail |
| Session.ObtenirUtilisateur | OpenLearn/js/app.js:241-244 | reads the session record, `None` when the key is absent; stated through `EstConnecte` and `LecturesParDefaut` |
| Session.ObtenirPanier | OpenLearn/js/app.js:313-315 | reads the cart, the empty list when the key is absent (`LecturesParDefaut`) |
| Session.ObtenirMessages | OpenLearn/js/app.js:164 | reads the message list, the empty list when the key is absent (`LecturesParDefaut`) |
| Session.Connexion | OpenLearn/js/app.js:14-46 | `traiterConnexion` as a function of the store; its rules are stated by `ConnexionRegles` |
| Session.Inscription | OpenLearn/js/app.js:52-120 | `traiterInscription` as a function of the store; its rules are stated by `InscriptionRegles` |
| Session.Contact | OpenLearn/js/app.js:126-182 | `traiterContact` as a function of the store; its rules are stated by `ContactRegles` and `ContactIgnoreTelephone` |
| Session.AvecFormation | OpenLearn/js/app.js:285-296 | the cart after `ajouterAuPanier`; stated by `AjoutContenu`, `AjoutIdempotent` and `AjoutGardeIdsDistincts` |
| Session.SansFormation | OpenLearn/js/app.js:304 | the cart after `retirerDuPanier`'s filter; stated by `RetraitContenu`, `RetraitConcat`, `RetraitAbsent` and `RetraitApresAjout` |
| Session.EstConnecte | OpenLearn/js/app.js:241-253 | connected exactly when a session record is stored and its `connecte` flag is true |
| Session.LecturesParDefaut | OpenLearn/js/app.js:313-315 | with the keys absent, the cart and the message list read as empty and nobody is connected |
| Session.RangEchec | OpenLearn/js/app.js:63-95 | the early returns stop at the first failing check: every check before that position passes, the check there fails, and the position is the list's length when all pass |
| Session.PremierEchec | OpenLearn/js/app.js:63-95 | no error exactly when every check passes; otherwise the error is the message of the first failing check, which fails |
| Session.PremierEchecEn | OpenLearn/js/app.js:63-95 | when checks 0..k-1 pass and check k fails, the handler reports check k's message |
| Session.VerificationsConnexion | OpenLearn/js/app.js:21-30 | the login checks in source order with their messages: e-mail, then password length; stated through `ConnexionRegles` |
| Session.VerificationsInscription | OpenLearn/js/app.js:64-95 | the six registration checks in source order with their messages; stated through `InscriptionRegles` |
| Session.VerificationsContact | OpenLearn/js/app.js:137-155 | the four contact checks in source order with their messages (no telephone check); stated through `ContactRegles` and `ContactIgnoreTelephone` |
| Session.AjouterMessage | OpenLearn/js/app.js:164-173 | read "messages" (empty when absent), push one record, write it back; stated through `ContactRegles` |
| Session.ConnexionRegles | OpenLearn/js/app.js:14-46 | login fails on a bad e-mail first, then on a password under 6 characters; on success the session is `{email, connecte: true}`, the user is connected and no other key changes |
| Session.ConnexionSansFormeMotDePasse | OpenLearn/js/app.js:27-30 | login does not apply the password shape: "abcdef" fails `validerMotDePasse` yet logs in |
| Session.InscriptionRegles | OpenLearn/js/app.js:52-120 | registration checks name (3+), e-mail, password shape, confirmation, country, level in that order; the first failure names the error; success stores the connected profile and changes no other key |
| Session.ContactRegles | OpenLearn/js/app.js:126-182 | contact checks name, e-mail, subject, message length (10+) in order; success appends exactly one record at the end of the existing messages and changes no other key |
| Session.ContactIgnoreTelephone | OpenLearn/js/app.js:130-155 | the telephone never affects acceptance or the error |
| Session.ConnexionSociale | OpenLearn/js/app.js:188-206 | social login stores `{reseau, connecte: true, dateConnexion}`, the user is connected, no other key changes |
| Session.AjoutIdempotent | OpenLearn/js/app.js:285-296 | adding the same formation twice equals adding it once |
| Session.AjoutContenu | OpenLearn/js/app.js:285-296 | after adding, the id is present and the old cart is a prefix; a new id appends exactly the formation passed in, a known one leaves the cart unchanged |
| Session.AjoutGardeIdsDistincts | OpenLearn/js/app.js:289-291 | adding keeps pairwise-distinct ids distinct |
| Session.RetraitConcat | OpenLearn/js/app.js:304 | filtering a concatenation filters each part, so removal keeps the others' order |
| Session.RetraitContenu | OpenLearn/js/app.js:302-307 | removal drops every entry with the id and keeps every other entry with its multiplicity |
| Session.RetraitAbsent | OpenLearn/js/app.js:302-307 | removing an absent id yields the same cart |
| Session.RetraitApresAjout | OpenLearn/js/app.js:285-307 | removing a formation just added to a cart without its id restores the cart |
| Session.StockageLocal.TraiterConnexion | OpenLearn/js/app.js:14-46 | the early-return chain and write agree with `Connexion`; a failure leaves the store unchanged; success redirects to index.html |
| Session.StockageLocal.TraiterInscription | OpenLearn/js/app.js:52-120 | the early-return chain and write agree with `Inscription`; a failure leaves the store unchanged |
| Session.StockageLocal.TraiterContact | OpenLearn/js/app.js:126-182 | read, push and write agree with `Contact`; a failure leaves the store unchanged; no redirect |
| Session.StockageLocal.ConnexionParReseau | OpenLearn/js/app.js:188-206 | the "Connexion avec … en cours..." notice first; then the store becomes `ConnexionSociale` of the old store, with the "Connexion via … réussie!" notice and the redirect to index.html |
| Session.StockageLocal.Deconnecter | OpenLearn/js/app.js:258-262 | the session key is removed, nothing else changes, nobody is connected afterwards, the "Vous avez été déconnecté" notice is shown and the browser goes to index.html |
| Session.StockageLocal.AjouterAuPanier | OpenLearn/js/app.js:285-296 | the cart becomes `AvecFormation` of the old cart; the store is written only when the id was absent; the notice is "… ajoutée au panier" then, "… est déjà dans votre panier" otherwise |
| Session.StockageLocal.RetirerDuPanier | OpenLearn/js/app.js:302-307 | the cart key is written with the filtered cart; no other key changes; the notice is "Formation retirée du panier" |
| Routage.PageDuChemin | OpenLearn/js/routing.js:34 | the route table's entry for the path, or index.html when it has none; stated by `PageDuCheminTable` |
| Routage.PageDuCheminTable | OpenLearn/js/routing.js:7-35 | the six paths map to their files, "/" and "/accueil" both to index.html, any other path to index.html |
| Routage.EstAncre | OpenLearn/js/routing.js:43 | `destination.startsWith('#')`; stated through `SurClicLien` and `NaviguerVers` |
| Routage.SurClicLien | OpenLearn/js/routing.js:21-29 | a click is intercepted exactly when the href starts with "#" and is not "#", and then navigates to that href |
| Routage.ChangerPage | OpenLearn/js/routing.js:60-69 | "" and "authentification" go to authentification.html (lines 119-121), any other page is the new location verbatim; never empty |
| Routage.ChangerPageStable | OpenLearn/js/routing.js:60-69 | redirecting a redirect target goes to the same place |
| Routage.ScrollVers | OpenLearn/js/routing.js:90-97 | a scroll happens exactly when the element exists |
| Routage.NaviguerVers | OpenLearn/js/routing.js:42-54 | an anchor never changes the location, scrolls exactly when its element exists, and otherwise does nothing; any other destination goes through `changerPage` |
| Routage.ClicSansRechargement | OpenLearn/js/routing.js:21-54 | an intercepted click never reloads the page, and one on a missing anchor has no effect |
| Routage.PremierLien | OpenLearn/js/routing.js:80 | `querySelector('a[href="ancre"]')`: the position of the first matching element, every element before it does not match, or the page's length when none does |
| Routage.ApresNavigation | OpenLearn/js/routing.js:75-84 | the page after the highlight; stated by `NavigationUnSeulActif` and `NavigationIdempotente` |
| Routage.NavigationIdempotente | OpenLearn/js/routing.js:75-84 | highlighting the same anchor twice equals highlighting it once, so the delayed second call at routing.js:95 changes nothing |
| Routage.Eteint | OpenLearn/js/routing.js:76-78 | a `nav-link` loses `actif`, any other element is unchanged; stated through `NavigationUnSeulActif` |
| Routage.NavigationUnSeulActif | OpenLearn/js/routing.js:75-84 | afterwards only the first `a` whose href is the anchor may be an active nav-link, it is active, at most one element gains `actif`, no attribute other than `actif` changes, and every element that is neither a `nav-link` nor that link (such as a filter button) keeps its `actif` |
| Routage.MettreAJourNavigation | OpenLearn/js/routing.js:75-84 | the clearing loop and the single add leave the page as `ApresNavigation` says |
| Routage.Fenetre.ChargerPage | OpenLearn/js/routing.js:103-114 | a non-ok response or an error leaves body and history unchanged; an ok one replaces the body and pushes exactly one entry |
| Routage.Fenetre.SurPopstate | OpenLearn/js/routing.js:32-35 | back/forward loads the page of the path, with the index.html fallback |
| Routage.Basculer | OpenLearn/js/routing.js:130-133 | the two forms' flags after `basculerFormulaire`; stated by `BasculerProprietes` |
| Routage.BasculerProprietes | OpenLearn/js/routing.js:126-134 | toggling twice restores both forms; exactly one active form stays exactly one; with a form missing nothing changes |
| Routage.PageConnexion.BasculerFormulaire | OpenLearn/js/routing.js:126-134 | both flags flip when both forms exist, otherwise nothing changes |
| Animations.FermerAutres | OpenLearn/js/animations.js:123-127 | every item but i loses `ouvert`; stated by `FAQMemeEtat` |
| Animations.Inverser | OpenLearn/js/animations.js:130 | item i toggles `ouvert`; stated by `FAQMemeEtat` |
| Animations.FAQMemeEtat | OpenLearn/js/animations.js:121-150 | close-then-toggle and toggle-then-close give the same state: item i negated, all others closed, at most one open |
| Animations.CliquerQuestion | OpenLearn/js/animations.js:121-131 | the click listener closes every other item, then toggles item i |
| Animations.BasculerFAQ | OpenLearn/js/animations.js:140-150 | `basculerFAQ` toggles the parent item, then closes every other item |
| Animations.MinusculeCar | OpenLearn/js/animations.js:159 | `toLowerCase` on one character (ASCII and Latin-1 capitals); stated through `NiveauFiltreChoix` |
| Animations.Minuscules | OpenLearn/js/animations.js:159 | `toLowerCase` on a string; stated through `NiveauFiltreChoix` |
| Animations.NiveauFiltre | OpenLearn/js/animations.js:159 | the level a filter button selects; stated by `NiveauFiltreChoix` |
| Animations.Visible | OpenLearn/js/animations.js:179-181 | a card is shown when the level is "tous" or equals its `data-niveau` |
| Animations.ApresFiltre | OpenLearn/js/animations.js:178-194 | the cards once the filter's timers have fired; stated by `FiltreProprietes` |
| Animations.ActiverSeul | OpenLearn/js/animations.js:173-174 | the buttons after the `actif` update; stated by `FiltreProprietes` |
| Animations.NiveauFiltreChoix | OpenLearn/js/animations.js:159 | a non-empty `data-niveau` decides; otherwise the lower-cased text, so a "Tous" button gives "tous" |
| Animations.FiltreProprietes | OpenLearn/js/animations.js:169-195 | once each call's fade timers have fired: "tous" shows every card; another level shows exactly its cards; the last filter wins; only the clicked button is `actif` |
| Animations.FiltrerFormations | OpenLearn/js/animations.js:169-195 | clears `actif` on every button, marks the clicked one, and sets every card's display by the visibility rule |
| Animations.CliquerFiltre | OpenLearn/js/animations.js:155-163 | a button click filters by that button's level |
| Animations.Focus | OpenLearn/js/animations.js:232-234 | the parent after `focus`; stated by `FocusBlur` |
| Animations.Blur | OpenLearn/js/animations.js:236-243 | the parent after `blur`; stated by `FocusBlur` |
| Animations.FocusBlur | OpenLearn/js/animations.js:232-243 | after blur the parent is not focused and is active exactly when the value is non-empty; focus adds `focused` only |
| Animations.InitialiserEntrees | OpenLearn/js/animations.js:223-231 | a parent gains `active` exactly when one of its inputs has a non-empty value, and nothing else changes |
| Animations.SurFocus | OpenLearn/js/animations.js:232-234 | only the input's parent gains `focused` |
| Animations.SurBlur | OpenLearn/js/animations.js:236-243 | only the input's parent changes: `focused` removed, `active` set to whether the value is non-empty |
| Animations.Chiffres | OpenLearn/js/animations.js:346 | the text with non-digits removed holds only digits, no more characters than the text, and only characters of the text; with `ChiffresPartition` and `ChiffresConcat` it keeps every digit, in order |
| Animations.Suffixe | OpenLearn/js/animations.js:347 | the text with digits removed holds no digit and no more characters than the text |
| Animations.ChiffresPartage | OpenLearn/js/animations.js:346-347 | the digits and the suffix together hold every character of the text exactly as often as the text does |
| Animations.ChiffresPartition | OpenLearn/js/animations.js:346-347 | every digit of the text occurs in the digits as often as in the text, and every other character in the suffix as often as in the text |
| Animations.ChiffresConcat | OpenLearn/js/animations.js:346-347 | digits and suffix of a concatenation are those of each part in order, so the digits keep their order |
| Animations.ValeurDecimale | OpenLearn/js/animations.js:346 | `parseInt` of a digit string; stated through `DecimalValeur` and `TexteFinalStable` |
| Animations.Decimal | OpenLearn/js/animations.js:355 | `nombre + ''` for a natural number; stated by `DecimalValeur` |
| Animations.TexteFinal | OpenLearn/js/animations.js:344-361 | the counter's last text; stated by `TexteFinalStable` and `ExempleCompteur` |
| Animations.DecimalValeur | OpenLearn/js/animations.js:355 | the printed number is all digits, has no leading zero, and reads back as the number |
| Animations.ChiffresSeparation | OpenLearn/js/animations.js:346-347 | a digit string is its own digits with an empty suffix; the suffix holds no digit |
| Animations.TexteFinalStable | OpenLearn/js/animations.js:344-361 | the final text keeps the suffix and the number read from the digits, so re-reading it gives the same final text |
| Animations.ExempleCompteur | OpenLearn/js/animations.js:346-355 | "+500" ends as "500+" |
| Animations.Observer | OpenLearn/js/animations.js:329-332 | one observation of a stat card; stated by `ObserverUneFois` |
| Animations.ObserverUneFois | OpenLearn/js/animations.js:329-332 | observing twice equals observing once: a number is animated at most once and is then marked counted |
| Animations.SurIntersection | OpenLearn/js/animations.js:325-335 | after one observer batch each card equals `Observer` of its old state and whether some intersecting entry targets it |

## Left out

- DOM and event wiring: listener registration, `querySelector*`, `DOMContentLoaded`, `IntersectionObserver` set-up. Elements are array entries, and the ids present are a set.
- Tooltips, parallax, card hover transforms, the scroll-in animation and the style sheet injection are purely visual.
- Notifications are modelled only by their text, returned by the handlers. Their type, styling, display and removal are left out.
- Timers and simulated delays are left out. The model gives the state after they fire. The 300 ms second highlight in `scrollVers` is covered by `NavigationIdempotente`.
- Submit-button disabling, its label changes and the contact form's reset are cosmetic.
- JSON encoding is not modelled. A store key whose value has another shape is excluded by the invariant `BienType`, which every handler preserves; values written by other scripts are not modelled.
- Strings are sequences of UTF-16 code units. Characters outside the Basic Multilingual Plane are not modelled.
- Animations.MinusculeCar: lowers ASCII and Latin-1 capitals only, because full Unicode case mapping is a library table.
- Routage.NaviguerVers: element existence is membership of the id in a set, so the CSS reading of the destination is not modelled. A destination that is not a valid selector (such as "#1a") makes `querySelector` throw. A valid compound one such as "#a.b" is read as id "a" with class "b" at routing.js:45, while `scrollVers` looks up the id "a.b" at routing.js:91.
- Routage.PremierLien: an anchor containing a double quote breaks the `a[href="…"]` selector. This is not modelled.
- Routage.Fenetre.ChargerPage: HTML parsing and the console log are left out. So is the call to `initialiserRouting` after each successful load (routing.js:110). That call adds another `popstate` listener (routing.js:32), so after k loads one back/forward press fetches and pushes history k+1 times.
- Routage.Fenetre.SurPopstate: "exactly one entry" holds only while a single `popstate` listener is registered, that is, before any successful `chargerPage`.
- Animations.FiltreProprietes: "the last filter wins" holds only once the previous call's timers have fired. A card hidden by one filter gets a 300 ms `display = 'none'` timer (animations.js:190-192). If a second filter shows it within that time (animations.js:182), the stale timer hides it again. The model has no pending timers.
- Animations.FiltrerFormations: the source marks the implicit global `event.target` as active. The model takes the clicked button as a parameter instead. Fade timings are left out.
- Animations.BasculerFAQ: the parent of the clicked question is assumed to be an FAQ item. A parent outside the list would be toggled and every item closed; this is not modelled.
- Animations.TexteFinal: prints the exact decimal of the digits. JavaScript numbers lose precision above 2^53 and print in exponent form from 10^21. The intermediate frames (float division by 30, `Math.floor`) are left out. For text without digits, the steady text "NaN" followed by the suffix is modelled.
- Session.Formation: only `id` and `nom` are kept, because the script reads no other field.
- Helpers outside the core are not modelled: `mettreAJourBoutonConnexion`, `formaterDate` (locale formatting), `copierDansPressePapiers` (clipboard promise), `obtenirParametreURL` (`URLSearchParams`), and `initialiserBoutonsInscription` (a delayed redirect).
