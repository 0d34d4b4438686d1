/** The pure helpers of the bip! card widget: the balance thresholds behind
    the colour, the bar and the level text, the saved-card list, the digit
    sanitiser of the input field and the query gate. */
module BalanceWidget {
  import opened Js
  import Lists
  import opened Validation
  import opened TransitData

  // ---------------------------------------------------------------- thresholds

  /** The three balance levels, split at 1000 and 3000 pesos. */
  datatype Level = Bajo | Medio | Alto

  function LevelOf(saldo: int): Level {
    if saldo < 1000 then Bajo else if saldo < 3000 then Medio else Alto
  }

  function Rank(l: Level): nat {
    match l
    case Bajo => 0
    case Medio => 1
    case Alto => 2
  }

  /** A larger balance never has a lower level. */
  lemma LevelMonotone(a: int, b: int)
    requires a <= b
    ensures Rank(LevelOf(a)) <= Rank(LevelOf(b))
  {
  }

  function LevelHue(l: Level): string {
    match l
    case Bajo => "red"
    case Medio => "yellow"
    case Alto => "green"
  }

  /** `getSaldoColor`: red under 1000, yellow under 3000, green from there on. */
  function SaldoColor(saldo: int): (c: string)
    ensures c == "text-" + LevelHue(LevelOf(saldo)) + "-400"
  {
    if saldo < 1000 then "text-red-400"
    else if saldo < 3000 then "text-yellow-400"
    else "text-green-400"
  }

  /** The balance bar: its width and its colour. */
  datatype Indicator = Indicator(width: string, color: string)

  function LevelWidth(l: Level): string {
    match l
    case Bajo => "20%"
    case Medio => "50%"
    case Alto => "80%"
  }

  /** `getSaldoIndicator`: 20% red, 50% yellow or 80% green, on the same thresholds. */
  function SaldoIndicator(saldo: int): (r: Indicator)
    ensures r == Indicator(LevelWidth(LevelOf(saldo)), "bg-" + LevelHue(LevelOf(saldo)) + "-400")
  {
    if saldo < 1000 then Indicator("20%", "bg-red-400")
    else if saldo < 3000 then Indicator("50%", "bg-yellow-400")
    else Indicator("80%", "bg-green-400")
  }

  /** The bar is drawn in the hue of the amount's text, and a larger balance never draws a shorter bar. */
  lemma BarMatchesText(a: int, b: int)
    ensures SaldoIndicator(a).color[3..] == SaldoColor(a)[5..]
    ensures a <= b ==> Rank(LevelOf(a)) <= Rank(LevelOf(b))
  {
  }

  /** `balance || 0`: the value the colour and the bar are computed from. */
  function OrZero(balance: Option<int>): int {
    if balance.Some? then balance.value else 0
  }

  function LevelName(l: Level): string {
    match l
    case Bajo => "Bajo"
    case Medio => "Medio"
    case Alto => "Alto"
  }

  /** The level text as written: `balance < 1000 ? … : balance < 3000 ? … : …`
      on the raw balance. An absent balance compares false with both
      thresholds, so it reads "Alto". */
  function LevelTextAsWritten(balance: Option<int>): (t: string)
    ensures balance.Some? ==> t == LevelName(LevelOf(balance.value))
    ensures balance.None? ==> t == "Alto"
  {
    match balance
    case Some(b) => if b < 1000 then "Bajo" else if b < 3000 then "Medio" else "Alto"
    case None => "Alto"
  }

  /** A card whose API answer has no balance is shown with a red amount and
      a 20% red bar, yet labelled "Alto". */
  lemma LevelTextDisagreesWithoutBalance(s: Session, st: Storage, numero: string, now: int)
    requires IsCardNumber(numero)
    ensures var r := ConsultarSaldoBip(s, st, numero, HttpReply(200, Parsed(CardData(None, Undefined, Undefined))), now);
      var shown := r.session.saldoBip.value;
      && LevelTextAsWritten(shown.balance) == "Alto"
      && SaldoColor(OrZero(shown.balance)) == "text-red-400"
      && SaldoIndicator(OrZero(shown.balance)) == Indicator("20%", "bg-red-400")
  {
  }

  /** The level text on the same `balance || 0` the colour and bar use. */
  function LevelText(balance: Option<int>): (t: string)
    ensures t == LevelName(LevelOf(OrZero(balance)))
  {
    var b := OrZero(balance);
    if b < 1000 then "Bajo" else if b < 3000 then "Medio" else "Alto"
  }

  /** The level that a colour class names, if any. */
  function LevelOfColor(c: string): Option<Level> {
    if c == "text-red-400" then Some(Bajo)
    else if c == "text-yellow-400" then Some(Medio)
    else if c == "text-green-400" then Some(Alto)
    else None
  }

  function LevelOfName(t: string): Option<Level> {
    if t == "Bajo" then Some(Bajo)
    else if t == "Medio" then Some(Medio)
    else if t == "Alto" then Some(Alto)
    else None
  }

  /** With the correction, the text, the colour and the bar always name the same level. */
  lemma LevelTextAgrees(balance: Option<int>)
    ensures LevelOfName(LevelText(balance)) == LevelOfColor(SaldoColor(OrZero(balance)))
    ensures LevelOfName(LevelText(balance)).Some?
    ensures SaldoIndicator(OrZero(balance)).color[3..] == SaldoColor(OrZero(balance))[5..]
  {
  }

  // ---------------------------------------------------------------- saved cards

  /** A saved card: number, alias and the balance last seen, if any. */
  datatype SavedCard = SavedCard(numero: string, alias: string, ultimoSaldo: Option<int>)

  /** `saldoBip?.balance`. */
  function LastBalance(saldoBip: Option<Saldo>): Option<int> {
    if saldoBip.Some? then saldoBip.value.balance else None
  }

  /** `guardarTarjeta`: append one card when both the number and the alias are non-empty. */
  function GuardarTarjeta(tarjetas: seq<SavedCard>, numero: string, alias: string, saldoBip: Option<Saldo>): (r: seq<SavedCard>)
    ensures numero != "" && alias != "" ==>
      |r| == |tarjetas| + 1 && r[..|tarjetas|] == tarjetas && r[|tarjetas|] == SavedCard(numero, alias, LastBalance(saldoBip))
    ensures numero == "" || alias == "" ==> r == tarjetas
  {
    if numero != "" && alias != "" then tarjetas + [SavedCard(numero, alias, LastBalance(saldoBip))] else tarjetas
  }

  predicate Keeps(numero: string, t: SavedCard) {
    t.numero != numero
  }

  /** `eliminarTarjeta`: every card with that number removed, the others kept in order. */
  function EliminarTarjeta(tarjetas: seq<SavedCard>, numero: string): (r: seq<SavedCard>)
    ensures forall t :: t in r ==> t.numero != numero
    ensures forall t :: t in tarjetas && t.numero != numero ==> t in r
    ensures forall t :: t in r ==> t in tarjetas
  {
    Lists.Filter(tarjetas, t => Keeps(numero, t))
  }

  /** Removing a card from a split list removes it from both parts, so the remaining cards keep their order. */
  lemma EliminarKeepsOrder(front: seq<SavedCard>, back: seq<SavedCard>, numero: string)
    ensures EliminarTarjeta(front + back, numero) == EliminarTarjeta(front, numero) + EliminarTarjeta(back, numero)
  {
    Lists.FilterConcat(front, back, t => Keeps(numero, t));
  }

  /** Saving a card and then deleting its number leaves what deleting alone leaves. */
  lemma SaveThenDelete(tarjetas: seq<SavedCard>, numero: string, alias: string, saldoBip: Option<Saldo>)
    ensures EliminarTarjeta(GuardarTarjeta(tarjetas, numero, alias, saldoBip), numero) == EliminarTarjeta(tarjetas, numero)
  {
    if numero != "" && alias != "" {
      var added := SavedCard(numero, alias, LastBalance(saldoBip));
      EliminarKeepsOrder(tarjetas, [added], numero);
      assert EliminarTarjeta([added], numero) == [];
    }
  }

  /** Deleting a card that is not saved changes nothing. */
  lemma DeleteAbsent(tarjetas: seq<SavedCard>, numero: string)
    requires forall t :: t in tarjetas ==> t.numero != numero
    ensures EliminarTarjeta(tarjetas, numero) == tarjetas
  {
    Lists.FilterAll(tarjetas, t => Keeps(numero, t));
  }

  // ---------------------------------------------------------------- input and gate

  /** The input field's cap on the typed text. */
  const MaxInputLength := 12

  /** `value.replace(/\D/g, "")`: only the digits, in order. */
  function KeepDigits(raw: string): (r: string)
    ensures AllDigits(r) && |r| <= |raw|
    ensures forall c :: c in r <==> c in raw && IsDigit(c)
  {
    var r := Lists.Filter(raw, IsDigit);
    assert forall i :: 0 <= i < |r| ==> IsDigit(r[i]) by {
      forall i | 0 <= i < |r| ensures IsDigit(r[i]) {
        assert r[i] in r;
      }
    }
    r
  }

  /** Sanitising twice is sanitising once. */
  lemma KeepDigitsIdempotent(raw: string)
    ensures KeepDigits(KeepDigits(raw)) == KeepDigits(raw)
  {
    var r := KeepDigits(raw);
    Lists.FilterAll(r, IsDigit);
  }

  /** `handleConsultar` asks for the balance only from 8 characters on. */
  predicate QueryGate(numero: string)
    ensures IsCardNumber(numero) ==> QueryGate(numero)
    ensures |numero| < 8 ==> !QueryGate(numero)
  {
    |numero| >= 8
  }

  /** The query button is enabled when the card is not loading and the gate is open. */
  predicate ButtonEnabled(s: Session, numero: string)
    ensures ButtonEnabled(s, numero) ==> |numero| >= 8
    ensures CardKey in s.loading && s.loading[CardKey] ==> !ButtonEnabled(s, numero)
    ensures CardKey !in s.loading ==> (ButtonEnabled(s, numero) <==> |numero| >= 8)
  {
    !(CardKey in s.loading && s.loading[CardKey]) && QueryGate(numero)
  }

  /** The button comes back after every validated query, whatever the API
      answered: the card channel always ends with `loading` cleared. */
  lemma ButtonEnabledAfterQuery(s: Session, st: Storage, numero: string, reply: Reply<CardData>, now: int)
    requires IsCardNumber(numero)
    ensures ButtonEnabled(ConsultarSaldoBip(s, st, numero, reply, now).session, numero)
  {
  }

  /** A sanitised card number is accepted by the hook exactly when it has the
      right length: the sanitiser leaves alone precisely the all-digit strings. */
  lemma CardNumberIsSanitised(numero: string)
    ensures IsCardNumber(numero) <==> 8 <= |numero| <= 12 && KeepDigits(numero) == numero
  {
    if AllDigits(numero) {
      Lists.FilterAll(numero, IsDigit);
    }
    if KeepDigits(numero) == numero {
      assert AllDigits(numero);
    }
  }

  /** Whatever is typed into the capped field, a number that passes the gate
      also passes the hook's validation: a query from the form is never
      rejected as malformed. */
  lemma FormQueriesAreValid(raw: string)
    requires |raw| <= MaxInputLength
    requires QueryGate(KeepDigits(raw))
    ensures IsCardNumber(KeepDigits(raw))
  {
  }

  /** So a query from the form always reaches the API and always publishes a balance. */
  lemma FormQueryPublishes(s: Session, st: Storage, raw: string, reply: Reply<CardData>, now: int)
    requires |raw| <= MaxInputLength && QueryGate(KeepDigits(raw))
    ensures var r := ConsultarSaldoBip(s, st, KeepDigits(raw), reply, now);
      r.request == Some(BalanceUrl + KeepDigits(raw)) && r.session.saldoBip.Some?
  {
    FormQueriesAreValid(raw);
  }
}
