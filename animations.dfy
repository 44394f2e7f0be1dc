/**
 * Interaction handlers of OpenLearn's animation script: the FAQ accordion, the
 * course filter, the input focus classes and the statistic counters.
 *
 * Elements are entries of arrays of small records (their class flags and the
 * attributes the handlers read); each handler is a method that loops over such
 * an array, proved to produce the state given by a function of the old state.
 * Timers are abstracted: a state is the one reached once every pending timer
 * has fired.
 */
module Animations {
  import opened Options
  import opened Validation

  // ---------------------------------------------------------------------------
  // FAQ (initialiserFAQ, basculerFAQ)
  // ---------------------------------------------------------------------------

  /** Every item other than `i` loses `ouvert`. */
  function FermerAutres(ouvert: seq<bool>, i: int): seq<bool>
    requires 0 <= i < |ouvert|
  {
    seq(|ouvert|, k requires 0 <= k < |ouvert| => k == i && ouvert[k])
  }

  /** `classList.toggle('ouvert')` on item `i`. */
  function Inverser(ouvert: seq<bool>, i: int): seq<bool>
    requires 0 <= i < |ouvert|
  {
    ouvert[i := !ouvert[i]]
  }

  /** At most one item is open. */
  predicate AuPlusUnOuvert(ouvert: seq<bool>) {
    forall j, k :: 0 <= j < |ouvert| && 0 <= k < |ouvert| && ouvert[j] && ouvert[k] ==> j == k
  }

  /**
   * The click listener closes the others and then toggles item `i`;
   * `basculerFAQ` toggles first and then closes the others. Both end in the same
   * state: item `i` has the negation of its old state and every other item is
   * closed, so at most one item is open.
   */
  lemma FAQMemeEtat(ouvert: seq<bool>, i: int)
    requires 0 <= i < |ouvert|
    ensures Inverser(FermerAutres(ouvert, i), i) == FermerAutres(Inverser(ouvert, i), i)
    ensures var r := FermerAutres(Inverser(ouvert, i), i);
      && |r| == |ouvert|
      && r[i] == !ouvert[i]
      && (forall k :: 0 <= k < |r| && k != i ==> !r[k])
      && AuPlusUnOuvert(r)
  {
    var a := Inverser(FermerAutres(ouvert, i), i);
    var b := FermerAutres(Inverser(ouvert, i), i);
    assert forall k :: 0 <= k < |ouvert| ==> a[k] == b[k];
  }

  /** The click listener of `initialiserFAQ` on item `i`'s question. */
  method CliquerQuestion(ouvert: array<bool>, i: int)
    requires 0 <= i < ouvert.Length
    modifies ouvert
    ensures ouvert[..] == Inverser(FermerAutres(old(ouvert[..]), i), i)
  {
    for j := 0 to ouvert.Length
      invariant forall k :: 0 <= k < j ==> ouvert[k] == (k == i && old(ouvert[k]))
      invariant forall k :: j <= k < ouvert.Length ==> ouvert[k] == old(ouvert[k])
    {
      if j != i {
        ouvert[j] := false;
      }
    }
    ouvert[i] := !ouvert[i];
  }

  /** `basculerFAQ`, called with a question whose parent is item `i`. */
  method BasculerFAQ(ouvert: array<bool>, i: int)
    requires 0 <= i < ouvert.Length
    modifies ouvert
    ensures ouvert[..] == FermerAutres(Inverser(old(ouvert[..]), i), i)
  {
    ouvert[i] := !ouvert[i];
    for j := 0 to ouvert.Length
      invariant ouvert[i] == !old(ouvert[i])
      invariant forall k :: 0 <= k < j && k != i ==> !ouvert[k]
      invariant forall k :: j <= k < ouvert.Length && k != i ==> ouvert[k] == old(ouvert[k])
    {
      if j != i {
        ouvert[j] := false;
      }
    }
  }

  // ---------------------------------------------------------------------------
  // Course filter (initialiserFiltres, filtrerFormations)
  // ---------------------------------------------------------------------------

  /** A filter button: its `data-niveau` attribute (`None` when absent), its
      text, and whether it has class `actif`. */
  datatype Bouton = Bouton(niveau: Option<string>, texte: string, actif: bool)

  /** A course card: its `data-niveau` attribute and whether it is displayed. */
  datatype Carte = Carte(niveau: Option<string>, affichee: bool)

  /** `toLowerCase` on one character, for the ASCII and Latin-1 capitals. */
  function MinusculeCar(c: char): char {
    if MajusculeAscii(c) || ('\U{C0}' <= c <= '\U{DE}' && c != '\U{D7}') then (c as int + 32) as char else c
  }

  /** `toLowerCase` on a string. */
  function Minuscules(t: string): string {
    seq(|t|, k requires 0 <= k < |t| => MinusculeCar(t[k]))
  }

  /** `btn.getAttribute('data-niveau') || btn.textContent.toLowerCase()` */
  function NiveauFiltre(b: Bouton): string {
    if b.niveau.Some? && b.niveau.value != "" then b.niveau.value else Minuscules(b.texte)
  }

  /** The attribute decides when it is non-empty; otherwise the lower-cased
      text, which holds no capital and is unchanged by lowering again. */
  lemma NiveauFiltreChoix(b: Bouton)
    ensures b.niveau.Some? && b.niveau.value != "" ==> NiveauFiltre(b) == b.niveau.value
    ensures (b.niveau.None? || b.niveau == Some("")) ==>
      && |NiveauFiltre(b)| == |b.texte|
      && (forall k :: 0 <= k < |b.texte| ==> !MajusculeAscii(NiveauFiltre(b)[k]))
      && Minuscules(NiveauFiltre(b)) == NiveauFiltre(b)
    ensures NiveauFiltre(Bouton(None, "Tous", b.actif)) == "tous"
  {
    assert Minuscules("Tous") == "tous";
    if b.niveau.None? || b.niveau == Some("") {
      var r := NiveauFiltre(b);
      assert forall k :: 0 <= k < |r| ==> Minuscules(r)[k] == r[k];
    }
  }

  /** A card stays shown exactly when the level is "tous" or its `data-niveau` is the level. */
  predicate Visible(niveauCarte: Option<string>, niveau: string) {
    niveau == "tous" || niveauCarte == Some(niveau)
  }

  /** The cards once the filter's timers have fired. */
  function ApresFiltre(cartes: seq<Carte>, niveau: string): seq<Carte> {
    seq(|cartes|, k requires 0 <= k < |cartes| => cartes[k].(affichee := Visible(cartes[k].niveau, niveau)))
  }

  /** Only the clicked button keeps `actif`. */
  function ActiverSeul(boutons: seq<Bouton>, clique: int): seq<Bouton> {
    seq(|boutons|, b requires 0 <= b < |boutons| => boutons[b].(actif := b == clique))
  }

  /**
   * "tous" shows every card; any other level shows exactly the cards of that
   * level; the outcome does not depend on what was shown before, so the last
   * filter wins; exactly the clicked button is active. These hold of the state
   * once each call's fade timers have fired: a second filter within 300 ms of
   * the first can be overridden by the first call's pending `display = 'none'`.
   */
  lemma FiltreProprietes(cartes: seq<Carte>, boutons: seq<Bouton>, clique: int, m: string, n: string)
    requires 0 <= clique < |boutons|
    ensures forall k :: 0 <= k < |cartes| ==> ApresFiltre(cartes, "tous")[k].affichee
    ensures n != "tous" ==>
      forall k :: 0 <= k < |cartes| ==> (ApresFiltre(cartes, n)[k].affichee <==> cartes[k].niveau == Some(n))
    ensures ApresFiltre(ApresFiltre(cartes, m), n) == ApresFiltre(cartes, n)
    ensures forall b :: 0 <= b < |boutons| ==> (ActiverSeul(boutons, clique)[b].actif <==> b == clique)
  {
  }

  /** `filtrerFormations(niveau)`, with the clicked button `clique` passed in. */
  method FiltrerFormations(boutons: array<Bouton>, clique: int, cartes: array<Carte>, niveau: string)
    requires 0 <= clique < boutons.Length
    modifies boutons, cartes
    ensures boutons[..] == ActiverSeul(old(boutons[..]), clique)
    ensures cartes[..] == ApresFiltre(old(cartes[..]), niveau)
  {
    for b := 0 to boutons.Length
      modifies boutons
      invariant forall k :: 0 <= k < b ==> boutons[k] == old(boutons[k]).(actif := false)
      invariant forall k :: b <= k < boutons.Length ==> boutons[k] == old(boutons[k])
    {
      boutons[b] := boutons[b].(actif := false);
    }
    boutons[clique] := boutons[clique].(actif := true);
    for k := 0 to cartes.Length
      modifies cartes
      invariant forall j :: 0 <= j < k ==> cartes[j] == old(cartes[j]).(affichee := Visible(old(cartes[j]).niveau, niveau))
      invariant forall j :: k <= j < cartes.Length ==> cartes[j] == old(cartes[j])
    {
      var visible := Visible(cartes[k].niveau, niveau);
      cartes[k] := cartes[k].(affichee := visible);
    }
  }

  /** The click listener of `initialiserFiltres` on button `i`. */
  method CliquerFiltre(boutons: array<Bouton>, i: int, cartes: array<Carte>)
    requires 0 <= i < boutons.Length
    modifies boutons, cartes
    ensures boutons[..] == ActiverSeul(old(boutons[..]), i)
    ensures cartes[..] == ApresFiltre(old(cartes[..]), NiveauFiltre(old(boutons[i])))
  {
    var niveau := NiveauFiltre(boutons[i]);
    FiltrerFormations(boutons, i, cartes, niveau);
  }

  // ---------------------------------------------------------------------------
  // Inputs (initialiserEntrees)
  // ---------------------------------------------------------------------------

  /** The classes `focused` and `active` of an input's parent element. */
  datatype Conteneur = Conteneur(focused: bool, active: bool)

  /** The `focus` listener. */
  function Focus(c: Conteneur): Conteneur {
    c.(focused := true)
  }

  /** The `blur` listener, given the field's value. */
  function Blur(c: Conteneur, valeur: string): Conteneur {
    c.(focused := false, active := valeur != "")
  }

  /** After a blur the parent is not focused and is active exactly when the
      value is non-empty, whatever came before; focus only adds `focused`. */
  lemma FocusBlur(c: Conteneur, valeur: string)
    ensures !Blur(c, valeur).focused && (Blur(c, valeur).active <==> valeur != "")
    ensures Blur(Focus(c), valeur) == Blur(c, valeur)
    ensures Focus(c).focused && Focus(c).active == c.active
  {
  }

  /** Some input under parent `p` has a non-empty value. */
  ghost predicate ValeurPresente(valeurs: seq<string>, parentDe: seq<nat>, p: nat) {
    exists k :: 0 <= k < |valeurs| && k < |parentDe| && parentDe[k] == p && valeurs[k] != ""
  }

  /** The initial pass of `initialiserEntrees`: a parent of a non-empty input gains `active`. */
  method InitialiserEntrees(valeurs: seq<string>, parentDe: seq<nat>, parents: array<Conteneur>)
    requires |valeurs| == |parentDe|
    requires forall k :: 0 <= k < |parentDe| ==> parentDe[k] < parents.Length
    modifies parents
    ensures forall p :: 0 <= p < parents.Length ==>
      parents[p] == old(parents[p]).(active := old(parents[p]).active || ValeurPresente(valeurs, parentDe, p))
  {
    for k := 0 to |valeurs|
      invariant forall p :: 0 <= p < parents.Length ==>
        parents[p] == old(parents[p]).(active := old(parents[p]).active || ValeurPresente(valeurs[..k], parentDe[..k], p))
    {
      if valeurs[k] != "" {
        var p := parentDe[k];
        parents[p] := parents[p].(active := true);
      }
      assert forall p :: ValeurPresente(valeurs[..k + 1], parentDe[..k + 1], p) <==>
        ValeurPresente(valeurs[..k], parentDe[..k], p) || (parentDe[k] == p && valeurs[k] != "") by {
        forall p ensures ValeurPresente(valeurs[..k + 1], parentDe[..k + 1], p) ==>
          ValeurPresente(valeurs[..k], parentDe[..k], p) || (parentDe[k] == p && valeurs[k] != "")
        {
          if ValeurPresente(valeurs[..k + 1], parentDe[..k + 1], p) {
            var j :| 0 <= j < k + 1 && parentDe[..k + 1][j] == p && valeurs[..k + 1][j] != "";
            if j < k {
              assert parentDe[..k][j] == p && valeurs[..k][j] != "";
            }
          }
        }
        forall p | ValeurPresente(valeurs[..k], parentDe[..k], p)
          ensures ValeurPresente(valeurs[..k + 1], parentDe[..k + 1], p)
        {
          var j :| 0 <= j < k && parentDe[..k][j] == p && valeurs[..k][j] != "";
          assert parentDe[..k + 1][j] == p && valeurs[..k + 1][j] != "";
        }
        if valeurs[k] != "" {
          assert parentDe[..k + 1][k] == parentDe[k] && valeurs[..k + 1][k] != "";
          assert ValeurPresente(valeurs[..k + 1], parentDe[..k + 1], parentDe[k]);
        }
      }
    }
    assert valeurs[..|valeurs|] == valeurs && parentDe[..|parentDe|] == parentDe;
  }

  /** The `focus` listener on an input under parent `p`. */
  method SurFocus(parents: array<Conteneur>, p: int)
    requires 0 <= p < parents.Length
    modifies parents
    ensures parents[..] == old(parents[..])[p := Focus(old(parents[p]))]
  {
    parents[p] := parents[p].(focused := true);
  }

  /** The `blur` listener on an input under parent `p` whose value is `valeur`. */
  method SurBlur(parents: array<Conteneur>, p: int, valeur: string)
    requires 0 <= p < parents.Length
    modifies parents
    ensures parents[..] == old(parents[..])[p := Blur(old(parents[p]), valeur)]
  {
    parents[p] := parents[p].(focused := false);
    if valeur != "" {
      parents[p] := parents[p].(active := true);
    } else {
      parents[p] := parents[p].(active := false);
    }
  }

  // ---------------------------------------------------------------------------
  // Counters (initialiserCompteurs, animerCompteur)
  // ---------------------------------------------------------------------------

  predicate QueDesChiffres(d: string) {
    forall k :: 0 <= k < |d| ==> ChiffreAscii(d[k])
  }

  /** `texte.replace(/\D/g, '')`: the digits, in order. */
  function Chiffres(t: string): (d: string)
    ensures QueDesChiffres(d)
    ensures |d| <= |t|
    ensures forall c :: c in d ==> c in t
  {
    if t == [] then []
    else (if ChiffreAscii(t[0]) then [t[0]] else []) + Chiffres(t[1..])
  }

  /** `texte.replace(/[0-9]/g, '')`: everything but the digits, in order. */
  function Suffixe(t: string): (r: string)
    ensures forall k :: 0 <= k < |r| ==> !ChiffreAscii(r[k])
    ensures |r| <= |t|
  {
    if t == [] then []
    else (if ChiffreAscii(t[0]) then [] else [t[0]]) + Suffixe(t[1..])
  }

  /** `parseInt` of a string of digits. */
  function ValeurDecimale(d: string): nat
    requires QueDesChiffres(d)
  {
    if d == [] then 0 else 10 * ValeurDecimale(d[..|d| - 1]) + (d[|d| - 1] as int - '0' as int)
  }

  /** The decimal text of a number, as `nombre + ''` writes it. */
  function Decimal(n: nat): string {
    if n < 10 then [('0' as int + n) as char] else Decimal(n / 10) + [('0' as int + n % 10) as char]
  }

  /** The counter's final text: the number read from the digits, then the
      suffix; with no digit the number is NaN and the text stays "NaN" and the
      suffix. */
  function TexteFinal(t: string): string {
    var d := Chiffres(t);
    if d == [] then "NaN" + Suffixe(t) else Decimal(ValeurDecimale(d)) + Suffixe(t)
  }

  /** The decimal text is made of digits, has no leading zero, and reads back as the number. */
  lemma {:induction false} DecimalValeur(n: nat)
    ensures QueDesChiffres(Decimal(n))
    ensures |Decimal(n)| > 1 ==> Decimal(n)[0] != '0'
    ensures ValeurDecimale(Decimal(n)) == n
  {
    if n >= 10 {
      DecimalValeur(n / 10);
      var d := Decimal(n);
      assert d[..|d| - 1] == Decimal(n / 10);
    }
  }

  /** Digits and suffix are taken piece by piece: those of a concatenation are
      those of each part, in order, so `Chiffres` keeps the text's digits in
      the order they appear. */
  lemma {:induction false} ChiffresConcat(a: string, b: string)
    ensures Chiffres(a + b) == Chiffres(a) + Chiffres(b)
    ensures Suffixe(a + b) == Suffixe(a) + Suffixe(b)
  {
    if a != [] {
      assert (a + b)[1..] == a[1..] + b;
      ChiffresConcat(a[1..], b);
    } else {
      assert a + b == b;
    }
  }

  /** The digits and the suffix share out the text: together they hold every
      character exactly as often as the text does. */
  lemma {:induction false} ChiffresPartage(t: string)
    ensures multiset(Chiffres(t)) + multiset(Suffixe(t)) == multiset(t)
  {
    if t != [] {
      ChiffresPartage(t[1..]);
      var h := if ChiffreAscii(t[0]) then [t[0]] else [];
      var g := if ChiffreAscii(t[0]) then [] else [t[0]];
      assert Chiffres(t) == h + Chiffres(t[1..]);
      assert Suffixe(t) == g + Suffixe(t[1..]);
      assert multiset(h) + multiset(g) == multiset([t[0]]);
      assert t == [t[0]] + t[1..];
    }
  }

  /** Every digit of the text is kept by `Chiffres` as often as it occurs, and
      every other character by `Suffixe`. */
  lemma ChiffresPartition(t: string)
    ensures forall c :: ChiffreAscii(c) ==> multiset(Chiffres(t))[c] == multiset(t)[c]
    ensures forall c :: !ChiffreAscii(c) ==> multiset(Suffixe(t))[c] == multiset(t)[c]
  {
    ChiffresPartage(t);
    var d, r := Chiffres(t), Suffixe(t);
    assert forall c :: ChiffreAscii(c) ==> c !in r;
    assert forall c :: !ChiffreAscii(c) ==> c !in d;
  }

  /** Digits split into themselves and nothing; the suffix has no digit left. */
  lemma {:induction false} ChiffresSeparation(t: string)
    ensures QueDesChiffres(t) ==> Chiffres(t) == t && Suffixe(t) == []
    ensures Chiffres(Suffixe(t)) == [] && Suffixe(Suffixe(t)) == Suffixe(t)
  {
    if t != [] {
      ChiffresSeparation(t[1..]);
      assert t == [t[0]] + t[1..];
      ChiffresConcat(if ChiffreAscii(t[0]) then [] else [t[0]], Suffixe(t[1..]));
    }
  }

  /**
   * The final text keeps the suffix and the number: read again, it gives the
   * same digits' value and the same suffix, so a counter whose text holds a
   * digit would end on the same text if it were animated again.
   */
  lemma TexteFinalStable(t: string)
    requires Chiffres(t) != []
    ensures Chiffres(TexteFinal(t)) != []
    ensures ValeurDecimale(Chiffres(TexteFinal(t))) == ValeurDecimale(Chiffres(t))
    ensures Suffixe(TexteFinal(t)) == Suffixe(t)
    ensures TexteFinal(TexteFinal(t)) == TexteFinal(t)
  {
    ChiffresSeparation(t);
    var v := ValeurDecimale(Chiffres(t));
    DecimalValeur(v);
    ChiffresConcat(Decimal(v), Suffixe(t));
    ChiffresSeparation(Decimal(v));
    assert TexteFinal(t) == Decimal(v) + Suffixe(t);
    assert Decimal(v) + [] == Decimal(v);
    assert Chiffres(TexteFinal(t)) == Decimal(v);
    assert Suffixe(TexteFinal(t)) == [] + Suffixe(t);
  }

  /** "+500" ends as "500+". */
  lemma ExempleCompteur()
    ensures TexteFinal("+500") == "500+"
  {
    assert Chiffres("+500") == "500";
    assert Suffixe("+500") == "+";
    assert "500"[..2] == "50" && "50"[..1] == "5" && "5"[..0] == "";
    assert ValeurDecimale("500") == 500;
    assert Decimal(500) == "500";
  }

  /** A `.stat-nombre` element: its text and whether `data-counted` is set. */
  datatype Nombre = Nombre(texte: string, compte: bool)

  /** One entry the intersection observer reports: the observed stat card and whether it intersects. */
  datatype Observation = Observation(cible: nat, intersecte: bool)

  /** One observation of a stat card (`None`: a card without a number): a
      visible number not yet counted is animated to its final text and marked
      counted; anything else is left alone. */
  function Observer(n: Option<Nombre>, vise: bool): Option<Nombre> {
    if vise && n.Some? && !n.value.compte then Some(Nombre(TexteFinal(n.value.texte), true)) else n
  }

  /** The one-shot guard: observing twice is observing once, so no number is
      ever animated a second time. */
  lemma ObserverUneFois(n: Option<Nombre>, v: bool, w: bool)
    ensures Observer(Observer(n, v), w) == Observer(n, v || w)
    ensures Observer(n, v).Some? ==> (Observer(n, v).value.compte <==> n.value.compte || v)
  {
  }

  /** Some intersecting observation targets card `c`. */
  ghost predicate Vise(observations: seq<Observation>, c: nat) {
    exists k :: 0 <= k < |observations| && observations[k].cible == c && observations[k].intersecte
  }

  /** The observer callback of `initialiserCompteurs` on one batch of observations. */
  method SurIntersection(cartes: array<Option<Nombre>>, observations: seq<Observation>)
    requires forall k :: 0 <= k < |observations| ==> observations[k].cible < cartes.Length
    modifies cartes
    ensures forall c :: 0 <= c < cartes.Length ==> cartes[c] == Observer(old(cartes[c]), Vise(observations, c))
  {
    for k := 0 to |observations|
      invariant forall c :: 0 <= c < cartes.Length ==>
        cartes[c] == Observer(old(cartes[c]), Vise(observations[..k], c))
    {
      var o := observations[k];
      ghost var avant := cartes[..];
      if o.intersecte {
        var n := cartes[o.cible];
        if n.Some? && !n.value.compte {
          cartes[o.cible] := Some(Nombre(TexteFinal(n.value.texte), true));
        }
      }
      forall c | 0 <= c < cartes.Length
        ensures cartes[c] == Observer(old(cartes[c]), Vise(observations[..k + 1], c))
      {
        var v := Vise(observations[..k], c);
        var w := o.cible == c && o.intersecte;
        assert cartes[c] == Observer(avant[c], w);
        ObserverUneFois(old(cartes[c]), v, w);
        assert Vise(observations[..k + 1], c) == (v || w) by {
          if Vise(observations[..k + 1], c) && !w {
            var j :| 0 <= j < k + 1 && observations[..k + 1][j].cible == c && observations[..k + 1][j].intersecte;
            assert j < k && observations[..k][j] == observations[j];
          }
          if v {
            var j :| 0 <= j < k && observations[..k][j].cible == c && observations[..k][j].intersecte;
            assert observations[..k + 1][j] == observations[j];
          }
          if w {
            assert observations[..k + 1][k] == o;
          }
        }
      }
    }
    assert observations[..|observations|] == observations;
  }
}
