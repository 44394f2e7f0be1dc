/**
 * Session, contact and cart state of OpenLearn's application script.
 *
 * The browser's local storage is a map from key to stored value; the three keys
 * the script uses ("utilisateur", "messages", "panier") hold typed values, and
 * any other key holds something this script never reads. JSON encoding is not
 * modelled: a stored value is the record itself.
 *
 * Each form handler is a chain of checks taken in a fixed order; the first check
 * that fails names the error notification and the store is left alone, and when
 * all pass one record is written. The pure functions `Connexion`, `Inscription`
 * and `Contact` give that outcome as `Erreur(message)` or `Succes(new store)`;
 * the class `StockageLocal` runs the same early-return chains on its map and is
 * proved to agree with them. Timestamps are parameters.
 */
module Session {
  import opened Options
  import opened Validation

  const CleUtilisateur := "utilisateur"
  const CleMessages := "messages"
  const ClePanier := "panier"
  const PageAccueil := "index.html"

  // Notification texts of the handlers.
  const MsgEmailInvalide := "Veuillez entrer une adresse email valide"
  const MsgMotDePasseCourt := "Le mot de passe doit contenir au moins 6 caractères"
  const MsgNomInscription := "Veuillez entrer un nom valide (min. 3 caractères)"
  const MsgMotDePasseFaible := "Le mot de passe doit contenir au moins 8 caractères, 1 majuscule et 1 chiffre"
  const MsgConfirmation := "Les mots de passe ne correspondent pas"
  const MsgPays := "Veuillez sélectionner votre pays"
  const MsgNiveau := "Veuillez sélectionner votre niveau"
  const MsgNomContact := "Veuillez entrer un nom valide"
  const MsgSujet := "Veuillez sélectionner un sujet"
  const MsgMessageCourt := "Le message doit contenir au moins 10 caractères"
  const MsgConnexionReussie := "Connexion réussie! Redirection..."
  const MsgCompteCree := "Compte créé avec succès! Redirection..."
  const MsgMessageEnvoye := "Message envoyé avec succès! Nous vous répondrons bientôt."
  const MsgDeconnexion := "Vous avez été déconnecté"
  const MsgRetraitPanier := "Formation retirée du panier"

  /** The notice `connexionSociale` shows at once, before its delay. */
  function MsgConnexionEnCours(reseau: string): string {
    "Connexion avec " + reseau + " en cours..."
  }

  /** The notice `connexionSociale` shows once the session is written. */
  function MsgConnexionViaReseau(reseau: string): string {
    "Connexion via " + reseau + " réussie!"
  }

  /** The notice when a formation enters the cart. */
  function MsgAjoutPanier(nom: string): string {
    nom + " ajoutée au panier"
  }

  /** The notice when the formation's id is already in the cart. */
  function MsgDejaDansPanier(nom: string): string {
    nom + " est déjà dans votre panier"
  }

  /** The shape of the session record: each way of signing in writes its own fields. */
  datatype Profil =
    | ParEmail(email: string)
    | Inscrit(nom: string, email: string, pays: string, niveau: string, dateInscription: string)
    | ParReseau(reseau: string, dateConnexion: string)

  /** The record under "utilisateur"; `connecte` is its `connecte` flag (a value
      other than `true` reads as `false`). */
  datatype Utilisateur = Utilisateur(profil: Profil, connecte: bool)

  /** One entry of the "messages" list. */
  datatype Message = Message(nom: string, email: string, telephone: string, sujet: string,
                             message: string, date: string)

  /** One entry of the "panier" list, identified by `id`. */
  datatype Formation = Formation(id: string, nom: string)

  datatype Valeur =
    | ValeurUtilisateur(utilisateur: Utilisateur)
    | ValeurMessages(messages: seq<Message>)
    | ValeurPanier(panier: seq<Formation>)
    | Autre(texte: string)

  type Entrees = map<string, Valeur>

  /** Each of the script's keys, when present, holds the kind of value the script writes there. */
  predicate BienType(e: Entrees) {
    && (CleUtilisateur in e ==> e[CleUtilisateur].ValeurUtilisateur?)
    && (CleMessages in e ==> e[CleMessages].ValeurMessages?)
    && (ClePanier in e ==> e[ClePanier].ValeurPanier?)
  }

  /** `e2` differs from `e1` at most under key `cle`. */
  ghost predicate AutresClesInchangees(e1: Entrees, e2: Entrees, cle: string) {
    forall k :: k != cle ==> (k in e1 <==> k in e2) && (k in e1 ==> e1[k] == e2[k])
  }

  // ---------------------------------------------------------------------------
  // Readers
  // ---------------------------------------------------------------------------

  /** `obtenirUtilisateur`: the session record, or `None` when the key is absent. */
  function ObtenirUtilisateur(e: Entrees): Option<Utilisateur> {
    if CleUtilisateur in e && e[CleUtilisateur].ValeurUtilisateur? then Some(e[CleUtilisateur].utilisateur)
    else None
  }

  /** `estConnecte`: a session record exists and its `connecte` flag is set. */
  function EstConnecte(e: Entrees): (connecte: bool)
    ensures connecte <==> exists p :: CleUtilisateur in e && e[CleUtilisateur] == ValeurUtilisateur(Utilisateur(p, true))
  {
    match ObtenirUtilisateur(e)
    case Some(u) => u.connecte
    case None => false
  }

  /** `obtenirPanier`: the cart, the empty list when the key is absent. */
  function ObtenirPanier(e: Entrees): seq<Formation> {
    if ClePanier in e && e[ClePanier].ValeurPanier? then e[ClePanier].panier else []
  }

  /** The "messages" list as the contact handler reads it, the empty list when absent. */
  function ObtenirMessages(e: Entrees): seq<Message> {
    if CleMessages in e && e[CleMessages].ValeurMessages? then e[CleMessages].messages else []
  }

  /** Absent keys read as the empty cart, the empty message list and no session. */
  lemma LecturesParDefaut(e: Entrees)
    requires ClePanier !in e && CleMessages !in e && CleUtilisateur !in e
    ensures ObtenirPanier(e) == [] && ObtenirMessages(e) == [] && !EstConnecte(e)
  {
  }

  // ---------------------------------------------------------------------------
  // Ordered checks
  // ---------------------------------------------------------------------------

  /** One early-return check of a form handler: whether it passes, and the
      notification shown when it does not. */
  datatype Verification = Verification(reussie: bool, message: string)

  /** The position of the first failing check: every check before it passes,
      and it fails, or it is `|vs|` when all pass. */
  function RangEchec(vs: seq<Verification>): (k: nat)
    ensures k <= |vs|
    ensures k < |vs| ==> !vs[k].reussie
    ensures forall m :: 0 <= m < k ==> vs[m].reussie
  {
    if vs == [] then 0
    else if !vs[0].reussie then 0
    else 1 + RangEchec(vs[1..])
  }

  /** The message of the first failing check, or `None` when all pass. */
  function PremierEchec(vs: seq<Verification>): (r: Option<string>)
    ensures r.None? <==> forall k :: 0 <= k < |vs| ==> vs[k].reussie
    ensures r.Some? ==> !vs[RangEchec(vs)].reussie && r.value == vs[RangEchec(vs)].message
  {
    var k := RangEchec(vs);
    if k < |vs| then Some(vs[k].message) else None
  }

  /** When checks `0..k-1` pass and check `k` fails, check `k` names the error. */
  lemma PremierEchecEn(vs: seq<Verification>, k: nat)
    requires k < |vs| && !vs[k].reussie
    requires forall m :: 0 <= m < k ==> vs[m].reussie
    ensures PremierEchec(vs) == Some(vs[k].message)
  {
    var j := RangEchec(vs);
    assert !(j < k) && !(k < j);
  }

  /** The outcome of a form handler: an error notification, or the new store. */
  datatype Resultat = Erreur(message: string) | Succes(entrees: Entrees)

  // ---------------------------------------------------------------------------
  // Login (traiterConnexion)
  // ---------------------------------------------------------------------------

  function VerificationsConnexion(email: string, motDePasse: string): seq<Verification> {
    [ Verification(ValiderEmail(email), MsgEmailInvalide),
      Verification(|motDePasse| >= 6, MsgMotDePasseCourt) ]
  }

  /** `traiterConnexion`: validate, then overwrite the session record with `{email, connecte: true}`. */
  function Connexion(e: Entrees, email: string, motDePasse: string): Resultat {
    match PremierEchec(VerificationsConnexion(email, motDePasse))
    case Some(m) => Erreur(m)
    case None => Succes(e[CleUtilisateur := ValeurUtilisateur(Utilisateur(ParEmail(email), true))])
  }

  /**
   * Login checks the e-mail, then that the password has at least six
   * characters (it does not apply the password shape); on success the store
   * holds a connected session for that e-mail and nothing else changes.
   */
  lemma ConnexionRegles(e: Entrees, email: string, motDePasse: string)
    ensures !ValiderEmail(email) ==> Connexion(e, email, motDePasse) == Erreur(MsgEmailInvalide)
    ensures ValiderEmail(email) && |motDePasse| < 6 ==> Connexion(e, email, motDePasse) == Erreur(MsgMotDePasseCourt)
    ensures Connexion(e, email, motDePasse).Succes? <==> ValiderEmail(email) && |motDePasse| >= 6
    ensures Connexion(e, email, motDePasse).Succes? ==>
      var e2 := Connexion(e, email, motDePasse).entrees;
      && ObtenirUtilisateur(e2) == Some(Utilisateur(ParEmail(email), true))
      && EstConnecte(e2)
      && AutresClesInchangees(e, e2, CleUtilisateur)
      && (BienType(e) ==> BienType(e2))
  {
    var vs := VerificationsConnexion(email, motDePasse);
    if !ValiderEmail(email) {
      PremierEchecEn(vs, 0);
    } else if |motDePasse| < 6 {
      PremierEchecEn(vs, 1);
    }
  }

  /** A password of six lower-case letters, which the password shape rejects, still logs in. */
  lemma ConnexionSansFormeMotDePasse(e: Entrees)
    ensures !ValiderMotDePasse("abcdef")
    ensures Connexion(e, "a@b.co", "abcdef").Succes?
  {
    ValiderEmailRegex("a@b.co");
    ExemplesEmail();
    ConnexionRegles(e, "a@b.co", "abcdef");
  }

  // ---------------------------------------------------------------------------
  // Registration (traiterInscription)
  // ---------------------------------------------------------------------------

  function VerificationsInscription(nom: string, email: string, motDePasse: string, confirmation: string,
                                    pays: string, niveau: string): seq<Verification>
  {
    [ Verification(|nom| >= 3, MsgNomInscription),
      Verification(ValiderEmail(email), MsgEmailInvalide),
      Verification(ValiderMotDePasse(motDePasse), MsgMotDePasseFaible),
      Verification(motDePasse == confirmation, MsgConfirmation),
      Verification(pays != "", MsgPays),
      Verification(niveau != "", MsgNiveau) ]
  }

  /** `traiterInscription`: validate, then overwrite the session record with the new profile. */
  function Inscription(e: Entrees, nom: string, email: string, motDePasse: string, confirmation: string,
                       pays: string, niveau: string, date: string): Resultat
  {
    match PremierEchec(VerificationsInscription(nom, email, motDePasse, confirmation, pays, niveau))
    case Some(m) => Erreur(m)
    case None => Succes(e[CleUtilisateur := ValeurUtilisateur(Utilisateur(Inscrit(nom, email, pays, niveau, date), true))])
  }

  /**
   * Registration checks, in this order, the name (three characters or more),
   * the e-mail, the password shape, the confirmation, the country and the
   * level; the first that fails names the error. When all pass the session
   * record holds the new profile, connected, and nothing else changes.
   */
  lemma InscriptionRegles(e: Entrees, nom: string, email: string, motDePasse: string, confirmation: string,
                          pays: string, niveau: string, date: string)
    ensures var r := Inscription(e, nom, email, motDePasse, confirmation, pays, niveau, date);
      var nomOk := |nom| >= 3;
      var emailOk := nomOk && ValiderEmail(email);
      var motDePasseOk := emailOk && ValiderMotDePasse(motDePasse);
      var confirmationOk := motDePasseOk && motDePasse == confirmation;
      var paysOk := confirmationOk && pays != "";
      && (!nomOk ==> r == Erreur(MsgNomInscription))
      && (nomOk && !ValiderEmail(email) ==> r == Erreur(MsgEmailInvalide))
      && (emailOk && !ValiderMotDePasse(motDePasse) ==> r == Erreur(MsgMotDePasseFaible))
      && (motDePasseOk && motDePasse != confirmation ==> r == Erreur(MsgConfirmation))
      && (confirmationOk && pays == "" ==> r == Erreur(MsgPays))
      && (paysOk && niveau == "" ==> r == Erreur(MsgNiveau))
      && (r.Succes? <==> paysOk && niveau != "")
      && (r.Succes? ==>
            && ObtenirUtilisateur(r.entrees) == Some(Utilisateur(Inscrit(nom, email, pays, niveau, date), true))
            && EstConnecte(r.entrees)
            && AutresClesInchangees(e, r.entrees, CleUtilisateur)
            && (BienType(e) ==> BienType(r.entrees)))
  {
    var vs := VerificationsInscription(nom, email, motDePasse, confirmation, pays, niveau);
    if |nom| < 3 {
      PremierEchecEn(vs, 0);
    } else if !ValiderEmail(email) {
      PremierEchecEn(vs, 1);
    } else if !ValiderMotDePasse(motDePasse) {
      PremierEchecEn(vs, 2);
    } else if motDePasse != confirmation {
      PremierEchecEn(vs, 3);
    } else if pays == "" {
      PremierEchecEn(vs, 4);
    } else if niveau == "" {
      PremierEchecEn(vs, 5);
    }
    EnregistrerSession(e, Inscrit(nom, email, pays, niveau, date));
  }

  /** Writing a connected profile under the session key. */
  lemma EnregistrerSession(e: Entrees, p: Profil)
    ensures var e2 := e[CleUtilisateur := ValeurUtilisateur(Utilisateur(p, true))];
      && ObtenirUtilisateur(e2) == Some(Utilisateur(p, true))
      && EstConnecte(e2)
      && AutresClesInchangees(e, e2, CleUtilisateur)
      && (BienType(e) ==> BienType(e2))
  {
  }

  // ---------------------------------------------------------------------------
  // Contact (traiterContact)
  // ---------------------------------------------------------------------------

  function VerificationsContact(nom: string, email: string, sujet: string, message: string): seq<Verification> {
    [ Verification(|nom| >= 3, MsgNomContact),
      Verification(ValiderEmail(email), MsgEmailInvalide),
      Verification(sujet != "", MsgSujet),
      Verification(|message| >= 10, MsgMessageCourt) ]
  }

  /** Append one message record to the "messages" list (absent reads as empty). */
  function AjouterMessage(e: Entrees, m: Message): Entrees {
    e[CleMessages := ValeurMessages(ObtenirMessages(e) + [m])]
  }

  /** `traiterContact`: validate (the telephone is not checked), then append the message. */
  function Contact(e: Entrees, nom: string, email: string, telephone: string, sujet: string, message: string,
                   date: string): Resultat
  {
    match PremierEchec(VerificationsContact(nom, email, sujet, message))
    case Some(m) => Erreur(m)
    case None => Succes(AjouterMessage(e, Message(nom, email, telephone, sujet, message, date)))
  }

  /**
   * Contact checks, in order, the name, the e-mail, the subject and the message
   * length. On success exactly one record is appended at the end of the
   * message list, earlier messages keep their order, and nothing else changes.
   */
  lemma ContactRegles(e: Entrees, nom: string, email: string, telephone: string, sujet: string,
                      message: string, date: string)
    ensures var r := Contact(e, nom, email, telephone, sujet, message, date);
      && (|nom| < 3 ==> r == Erreur(MsgNomContact))
      && (|nom| >= 3 && !ValiderEmail(email) ==> r == Erreur(MsgEmailInvalide))
      && (|nom| >= 3 && ValiderEmail(email) && sujet == "" ==> r == Erreur(MsgSujet))
      && (|nom| >= 3 && ValiderEmail(email) && sujet != "" && |message| < 10 ==> r == Erreur(MsgMessageCourt))
      && (r.Succes? <==> |nom| >= 3 && ValiderEmail(email) && sujet != "" && |message| >= 10)
      && (r.Succes? ==>
            && ObtenirMessages(r.entrees) == ObtenirMessages(e) + [Message(nom, email, telephone, sujet, message, date)]
            && AutresClesInchangees(e, r.entrees, CleMessages)
            && (BienType(e) ==> BienType(r.entrees)))
  {
    var vs := VerificationsContact(nom, email, sujet, message);
    if |nom| < 3 {
      PremierEchecEn(vs, 0);
    } else if !ValiderEmail(email) {
      PremierEchecEn(vs, 1);
    } else if sujet == "" {
      PremierEchecEn(vs, 2);
    } else if |message| < 10 {
      PremierEchecEn(vs, 3);
    }
  }

  /** The telephone number never decides whether a contact message is accepted. */
  lemma ContactIgnoreTelephone(e: Entrees, nom: string, email: string, t1: string, t2: string,
                               sujet: string, message: string, date: string)
    ensures Contact(e, nom, email, t1, sujet, message, date).Succes? <==>
            Contact(e, nom, email, t2, sujet, message, date).Succes?
    ensures Contact(e, nom, email, t1, sujet, message, date).Erreur? ==>
            Contact(e, nom, email, t1, sujet, message, date) == Contact(e, nom, email, t2, sujet, message, date)
  {
  }

  // ---------------------------------------------------------------------------
  // Social login (connexionSociale)
  // ---------------------------------------------------------------------------

  /** `connexionSociale`: no check; the session record becomes `{reseau, connecte: true, dateConnexion}`. */
  function ConnexionSociale(e: Entrees, reseau: string, date: string): (e2: Entrees)
    ensures ObtenirUtilisateur(e2) == Some(Utilisateur(ParReseau(reseau, date), true))
    ensures EstConnecte(e2)
    ensures AutresClesInchangees(e, e2, CleUtilisateur)
  {
    e[CleUtilisateur := ValeurUtilisateur(Utilisateur(ParReseau(reseau, date), true))]
  }

  // ---------------------------------------------------------------------------
  // Cart
  // ---------------------------------------------------------------------------

  /** `panier.find(f => f.id === id)` finds an entry. */
  predicate ContientId(panier: seq<Formation>, id: string) {
    exists k | 0 <= k < |panier| :: panier[k].id == id
  }

  /** No two entries share an identifier. */
  predicate IdsDistincts(panier: seq<Formation>) {
    forall j, k :: 0 <= j < k < |panier| ==> panier[j].id != panier[k].id
  }

  /** `ajouterAuPanier` on the list: unchanged when the id is present, else appended. */
  function AvecFormation(panier: seq<Formation>, f: Formation): seq<Formation> {
    if ContientId(panier, f.id) then panier else panier + [f]
  }

  /** `retirerDuPanier` on the list: `panier.filter(f => f.id !== id)`. */
  function SansFormation(panier: seq<Formation>, id: string): seq<Formation> {
    if panier == [] then []
    else (if panier[0].id == id then [] else [panier[0]]) + SansFormation(panier[1..], id)
  }

  /** Adding an identifier already added changes nothing. */
  lemma AjoutIdempotent(panier: seq<Formation>, f: Formation)
    ensures AvecFormation(AvecFormation(panier, f), f) == AvecFormation(panier, f)
  {
    if !ContientId(panier, f.id) {
      var p := panier + [f];
      assert p[|panier|].id == f.id;
    }
  }

  /** After adding, the identifier is present and the old entries are a
      prefix; a new identifier appends the formation itself, as given, and a
      known one leaves the cart as it was. */
  lemma AjoutContenu(panier: seq<Formation>, f: Formation)
    ensures ContientId(AvecFormation(panier, f), f.id)
    ensures panier <= AvecFormation(panier, f)
    ensures |AvecFormation(panier, f)| == |panier| + (if ContientId(panier, f.id) then 0 else 1)
    ensures !ContientId(panier, f.id) ==> AvecFormation(panier, f) == panier + [f]
    ensures ContientId(panier, f.id) ==> AvecFormation(panier, f) == panier
  {
    if !ContientId(panier, f.id) {
      assert (panier + [f])[|panier|].id == f.id;
    }
  }

  /** Adding keeps pairwise-distinct identifiers distinct. */
  lemma AjoutGardeIdsDistincts(panier: seq<Formation>, f: Formation)
    requires IdsDistincts(panier)
    ensures IdsDistincts(AvecFormation(panier, f))
  {
  }

  /** Filtering a concatenation filters each part. */
  lemma {:induction false} RetraitConcat(a: seq<Formation>, b: seq<Formation>, id: string)
    ensures SansFormation(a + b, id) == SansFormation(a, id) + SansFormation(b, id)
  {
    if a == [] {
      assert a + b == b;
    } else {
      assert (a + b)[1..] == a[1..] + b;
      RetraitConcat(a[1..], b, id);
    }
  }

  /** Removal keeps exactly the entries with another identifier, each as often as before. */
  lemma {:induction false} RetraitContenu(panier: seq<Formation>, id: string)
    ensures forall f :: multiset(SansFormation(panier, id))[f] == if f.id == id then 0 else multiset(panier)[f]
    ensures !ContientId(SansFormation(panier, id), id)
  {
    if panier != [] {
      RetraitContenu(panier[1..], id);
      assert panier == [panier[0]] + panier[1..];
    }
  }

  /** Removing an identifier that is absent yields the same list. */
  lemma {:induction false} RetraitAbsent(panier: seq<Formation>, id: string)
    requires !ContientId(panier, id)
    ensures SansFormation(panier, id) == panier
  {
    if panier != [] {
      RetraitAbsent(panier[1..], id);
      assert panier[0].id != id;
      assert panier == [panier[0]] + panier[1..];
    }
  }

  /** Removing what was just added to a cart without that identifier restores the cart. */
  lemma RetraitApresAjout(panier: seq<Formation>, f: Formation)
    requires !ContientId(panier, f.id)
    ensures SansFormation(AvecFormation(panier, f), f.id) == panier
  {
    RetraitConcat(panier, [f], f.id);
    RetraitAbsent(panier, f.id);
    assert SansFormation([f], f.id) == [];
  }

  // ---------------------------------------------------------------------------
  // The store
  // ---------------------------------------------------------------------------

  /** How a handler ended: the error notification, or the success notification
      and the page it redirects to afterwards (none for the contact form). */
  datatype Issue = Refus(message: string) | Accepte(message: string, redirection: Option<string>)

  /** The browser's local storage as the script's handlers change it. */
  class StockageLocal {
    var entrees: Entrees

    /** Every key the script owns holds a value of the shape the script writes
        there. The handlers keep this; the readers do not rely on it, since a
        value of another shape reads as absent, so it records the assumption
        that no other code writes these keys rather than a fact a handler needs. */
    ghost predicate Valid()
      reads this
    {
      BienType(entrees)
    }

    constructor (initiales: Entrees)
      requires BienType(initiales)
      ensures Valid() && entrees == initiales
    {
      entrees := initiales;
    }

    /** `traiterConnexion` after its simulated delay. */
    method TraiterConnexion(email: string, motDePasse: string) returns (issue: Issue)
      requires Valid()
      modifies this
      ensures Valid()
      ensures match Connexion(old(entrees), email, motDePasse)
              case Erreur(m) => issue == Refus(m) && entrees == old(entrees)
              case Succes(e2) => issue == Accepte(MsgConnexionReussie, Some(PageAccueil)) && entrees == e2
    {
      ConnexionRegles(entrees, email, motDePasse);
      if !ValiderEmail(email) {
        return Refus(MsgEmailInvalide);
      }
      if |motDePasse| < 6 {
        return Refus(MsgMotDePasseCourt);
      }
      entrees := entrees[CleUtilisateur := ValeurUtilisateur(Utilisateur(ParEmail(email), true))];
      issue := Accepte(MsgConnexionReussie, Some(PageAccueil));
    }

    /** `traiterInscription` after its simulated delay; `date` is the registration timestamp. */
    method TraiterInscription(nom: string, email: string, motDePasse: string, confirmation: string,
                              pays: string, niveau: string, date: string) returns (issue: Issue)
      requires Valid()
      modifies this
      ensures Valid()
      ensures match Inscription(old(entrees), nom, email, motDePasse, confirmation, pays, niveau, date)
              case Erreur(m) => issue == Refus(m) && entrees == old(entrees)
              case Succes(e2) => issue == Accepte(MsgCompteCree, Some(PageAccueil)) && entrees == e2
    {
      InscriptionRegles(entrees, nom, email, motDePasse, confirmation, pays, niveau, date);
      if |nom| < 3 {
        return Refus(MsgNomInscription);
      }
      if !ValiderEmail(email) {
        return Refus(MsgEmailInvalide);
      }
      if !ValiderMotDePasse(motDePasse) {
        return Refus(MsgMotDePasseFaible);
      }
      if motDePasse != confirmation {
        return Refus(MsgConfirmation);
      }
      if pays == "" {
        return Refus(MsgPays);
      }
      if niveau == "" {
        return Refus(MsgNiveau);
      }
      var utilisateur := Utilisateur(Inscrit(nom, email, pays, niveau, date), true);
      entrees := entrees[CleUtilisateur := ValeurUtilisateur(utilisateur)];
      issue := Accepte(MsgCompteCree, Some(PageAccueil));
    }

    /** `traiterContact` after its simulated delay: read the list, push, write it back. */
    method TraiterContact(nom: string, email: string, telephone: string, sujet: string, message: string,
                          date: string) returns (issue: Issue)
      requires Valid()
      modifies this
      ensures Valid()
      ensures match Contact(old(entrees), nom, email, telephone, sujet, message, date)
              case Erreur(m) => issue == Refus(m) && entrees == old(entrees)
              case Succes(e2) => issue == Accepte(MsgMessageEnvoye, None) && entrees == e2
    {
      ContactRegles(entrees, nom, email, telephone, sujet, message, date);
      if |nom| < 3 {
        return Refus(MsgNomContact);
      }
      if !ValiderEmail(email) {
        return Refus(MsgEmailInvalide);
      }
      if sujet == "" {
        return Refus(MsgSujet);
      }
      if |message| < 10 {
        return Refus(MsgMessageCourt);
      }
      var messages := ObtenirMessages(entrees);
      messages := messages + [Message(nom, email, telephone, sujet, message, date)];
      entrees := entrees[CleMessages := ValeurMessages(messages)];
      issue := Accepte(MsgMessageEnvoye, None);
    }

    /** `connexionSociale`: the "in progress" notice, then, once its simulated
        delay is over, the session record, the success notice and the redirect. */
    method ConnexionParReseau(reseau: string, date: string) returns (annonce: string, issue: Issue)
      requires Valid()
      modifies this
      ensures Valid()
      ensures entrees == ConnexionSociale(old(entrees), reseau, date)
      ensures annonce == MsgConnexionEnCours(reseau)
      ensures issue == Accepte(MsgConnexionViaReseau(reseau), Some(PageAccueil))
    {
      annonce := MsgConnexionEnCours(reseau);
      entrees := entrees[CleUtilisateur := ValeurUtilisateur(Utilisateur(ParReseau(reseau, date), true))];
      issue := Accepte(MsgConnexionViaReseau(reseau), Some(PageAccueil));
    }

    /** `deconnecter`: drop the session record, notify, and go to the home page. */
    method Deconnecter() returns (issue: Issue)
      requires Valid()
      modifies this
      ensures Valid()
      ensures entrees == old(entrees) - {CleUtilisateur}
      ensures !EstConnecte(entrees)
      ensures issue == Accepte(MsgDeconnexion, Some(PageAccueil))
    {
      entrees := entrees - {CleUtilisateur};
      issue := Accepte(MsgDeconnexion, Some(PageAccueil));
    }

    /** `ajouterAuPanier`: append unless an entry with the same id exists; the
        store is written only when the cart grows. */
    method AjouterAuPanier(f: Formation) returns (ajoutee: bool, notification: string)
      requires Valid()
      modifies this
      ensures Valid()
      ensures ajoutee <==> !ContientId(old(ObtenirPanier(entrees)), f.id)
      ensures notification == if ajoutee then MsgAjoutPanier(f.nom) else MsgDejaDansPanier(f.nom)
      ensures ObtenirPanier(entrees) == AvecFormation(old(ObtenirPanier(entrees)), f)
      ensures ajoutee ==> AutresClesInchangees(old(entrees), entrees, ClePanier)
      ensures !ajoutee ==> entrees == old(entrees)
    {
      var panier := ObtenirPanier(entrees);
      if !ContientId(panier, f.id) {
        panier := panier + [f];
        entrees := entrees[ClePanier := ValeurPanier(panier)];
        ajoutee := true;
        notification := MsgAjoutPanier(f.nom);
      } else {
        ajoutee := false;
        notification := MsgDejaDansPanier(f.nom);
      }
    }

    /** `retirerDuPanier`: write back the cart filtered by identifier. */
    method RetirerDuPanier(id: string) returns (notification: string)
      requires Valid()
      modifies this
      ensures Valid()
      ensures notification == MsgRetraitPanier
      ensures ClePanier in entrees
      ensures ObtenirPanier(entrees) == SansFormation(old(ObtenirPanier(entrees)), id)
      ensures AutresClesInchangees(old(entrees), entrees, ClePanier)
    {
      var panier := ObtenirPanier(entrees);
      panier := SansFormation(panier, id);
      entrees := entrees[ClePanier := ValeurPanier(panier)];
      notification := MsgRetraitPanier;
    }
  }
}
