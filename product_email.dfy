/** `ProductEmailService`: the notification sent when a product is updated,
    and the choice of who receives it. */
module ProductEmail {
  import opened Wrappers
  import opened Text
  import opened Catalog
  import opened Accounts
  import Tasks

  const SubjectPrefix: string := "[Catálogo] Producto actualizado: "
  /** What the body shows for the modifier when there is no user. */
  const UnknownModifier: string := "Desconocido"

  /** The subject: the fixed prefix followed by the product's `str`, so it
      names both the product and its SKU. */
  function Subject(p: Product): (s: string)
    ensures s == SubjectPrefix + Label(p)
    ensures Contains(s, p.name) && Contains(s, p.sku)
  {
    ContainsSuffix(SubjectPrefix, Label(p), p.name);
    ContainsSuffix(SubjectPrefix, Label(p), p.sku);
    SubjectPrefix + p.name + " (" + p.sku + ")"
  }

  /** The unsigned part of a rendered price, for a magnitude in cents: the
      whole units, a point and exactly two digits. */
  function Amount(magnitude: nat): (s: string)
    ensures |s| >= 4 && s[|s| - 3] == '.'
    ensures forall i :: 0 <= i < |s| && i != |s| - 3 ==> '0' <= s[i] <= '9'
  {
    Decimal(magnitude / 100) + "." + [Digit(magnitude % 100 / 10), Digit(magnitude % 10)]
  }

  /** The two-digit string `[Digit(d), Digit(e)]` reads back as `10 * d + e`. */
  lemma {:induction false} TwoDigitsValue(d: nat, e: nat)
    requires d < 10 && e < 10
    ensures DigitsValue([Digit(d), Digit(e)]) == 10 * d + e
  {
    var s := [Digit(d), Digit(e)];
    assert s[..1] == [Digit(d)];
    assert [Digit(d)][..0] == [];
    assert DigitsValue([Digit(d)]) == d;
    assert DigitsValue(s) == 10 * DigitsValue(s[..1]) + e;
  }

  /** Reading the digits of `Amount` back gives the magnitude: the digits
      before the point are the whole units, the two after it the cents. */
  lemma {:induction false} AmountValue(magnitude: nat)
    ensures var s := Amount(magnitude);
      DigitsValue(s[..|s| - 3]) * 100 + DigitsValue(s[|s| - 2..]) == magnitude
  {
    var whole := Decimal(magnitude / 100);
    var frac := [Digit(magnitude % 100 / 10), Digit(magnitude % 10)];
    var s := Amount(magnitude);
    assert s[..|s| - 3] == whole;
    assert s[|s| - 2..] == frac;
    DecimalRoundTrip(magnitude / 100);
    TwoDigitsValue(magnitude % 100 / 10, magnitude % 10);
  }

  /** The price as `f"{price:.2f}"` renders it, for a price given in cents:
      a minus sign for a negative price, then its `Amount`. */
  function FormatPrice(cents: int): (s: string)
    ensures |s| >= 4 && s[|s| - 3] == '.'
  {
    (if cents < 0 then "-" else "") + Amount(if cents < 0 then -cents else cents)
  }

  /** Digits, a point, and exactly two more digits. */
  predicate IsAmount(u: string) {
    |u| >= 4 && u[|u| - 3] == '.' && forall i :: 0 <= i < |u| && i != |u| - 3 ==> '0' <= u[i] <= '9'
  }

  /** Reads an unsigned amount back, in cents: the digits before the point
      are the whole units, the two after it the cents; anything else is not
      an amount. */
  function ReadAmount(u: string): Option<nat> {
    if !IsAmount(u) then None
    else
      Some(DigitsValue(u[..|u| - 3]) * 100 + DigitsValue(u[|u| - 2..]))
  }

  /** Reads a rendered price back, in cents: a leading minus sign negates. */
  function ReadPrice(s: string): Option<int> {
    if s != [] && s[0] == '-' then
      var m := ReadAmount(s[1..]);
      if m.Some? then Some(-(m.value as int)) else None
    else
      var m := ReadAmount(s);
      if m.Some? then Some(m.value as int) else None
  }

  /** Reading an `Amount` back gives the magnitude it was rendered from. */
  lemma {:induction false} AmountRoundTrip(magnitude: nat)
    ensures ReadAmount(Amount(magnitude)) == Some(magnitude)
  {
    assert IsAmount(Amount(magnitude));
    AmountValue(magnitude);
  }

  /** Reading the rendered price back gives the price: the sign, the whole
      units and the cents all survive rendering. */
  lemma {:induction false} FormatPriceRoundTrip(cents: int)
    ensures ReadPrice(FormatPrice(cents)) == Some(cents)
  {
    if cents < 0 {
      NegativePriceRoundTrip(cents);
    } else {
      PriceRoundTrip(cents);
    }
  }

  lemma {:induction false} NegativePriceRoundTrip(cents: int)
    requires cents < 0
    ensures ReadPrice(FormatPrice(cents)) == Some(cents)
  {
    var magnitude: nat := -cents;
    var s := FormatPrice(cents);
    assert s != [] && s[0] == '-' && ReadAmount(s[1..]) == Some(magnitude) by {
      var a := Amount(magnitude);
      AmountRoundTrip(magnitude);
      assert s == "-" + a;
      assert s[1..] == a;
    }
  }

  lemma {:induction false} PriceRoundTrip(cents: nat)
    ensures ReadPrice(FormatPrice(cents)) == Some(cents)
  {
    var s := FormatPrice(cents);
    assert s != [] && s[0] != '-' && ReadAmount(s) == Some(cents) by {
      var a := Amount(cents);
      AmountRoundTrip(cents);
      assert s == a;
      assert '0' <= a[0] <= '9';
    }
  }

  /** The modifier shown in the body: the user's email, or the placeholder
      when there is no user. */
  function ModifierLabel(actor: Option<User>): string {
    if actor.Some? then actor.value.email else UnknownModifier
  }

  /** The fixed text of the body, between the fields it shows. Content lines
      are indented by twelve spaces; the body starts with a line break and
      ends with a line break and eight spaces. */
  const Greeting: string :=
    "\n            Hola equipo,\n\n            Se ha realizado una modificación en el siguiente producto:\n\n"
    + "            \U{1F3CD}\U{FE0F} Nombre: "
  const SkuLine: string := "\n            \U{1F516} SKU: "
  const BrandLine: string := "\n            \U{1F3F7}\U{FE0F} Marca: "
  const PriceLine: string := "\n            \U{1F4B0} Precio actual: $"
  const ModifierLine: string := "\n\n            Modificado por: "
  const TimeLine: string := "\n            Fecha y hora: "
  const Closing: string :=
    "\n\n            Si no reconoces esta acción, por favor revisa el historial o contacta al equipo de soporte.\n\n"
    + "            Saludos,\n            Catálogo Automatizado\n        "

  /** The pieces of the body, in order: fixed text at even positions, and at
      odd positions the product's name, SKU, brand name, price, the modifier
      and the time of sending (`now`, already rendered as
      `%Y-%m-%d %H:%M UTC`). */
  function BodyParts(p: Product, brandName: string, actor: Option<User>, now: string): (parts: seq<string>)
    ensures |parts| == 13
    ensures parts[1] == p.name && parts[3] == p.sku && parts[5] == brandName
    ensures parts[7] == FormatPrice(p.priceCents) && parts[9] == ModifierLabel(actor) && parts[11] == now
    ensures parts[0] == Greeting && parts[2] == SkuLine && parts[4] == BrandLine && parts[6] == PriceLine
    ensures parts[8] == ModifierLine && parts[10] == TimeLine && parts[12] == Closing
  {
    [ Greeting, p.name, SkuLine, p.sku, BrandLine, brandName, PriceLine, FormatPrice(p.priceCents),
      ModifierLine, ModifierLabel(actor), TimeLine, now, Closing ]
  }

  /** The body: the template text with its fields filled in. */
  function Body(p: Product, brandName: string, actor: Option<User>, now: string): string {
    Join(BodyParts(p, brandName, actor, now), "")
  }

  /** The body names the product, its SKU, its brand, its price, who modified
      it and when. */
  lemma BodyMentions(p: Product, brandName: string, actor: Option<User>, now: string)
    ensures var b := Body(p, brandName, actor, now);
      && Contains(b, p.name) && Contains(b, p.sku) && Contains(b, brandName)
      && Contains(b, FormatPrice(p.priceCents)) && Contains(b, now)
      && (actor.Some? ==> Contains(b, actor.value.email))
      && (actor.None? ==> Contains(b, UnknownModifier))
  {
    var parts := BodyParts(p, brandName, actor, now);
    JoinContains(parts, "", 1);
    JoinContains(parts, "", 3);
    JoinContains(parts, "", 5);
    JoinContains(parts, "", 7);
    JoinContains(parts, "", 9);
    JoinContains(parts, "", 11);
  }

  /** A user who is told about an update made by the user with email `actorEmail`. */
  predicate Notified(u: User, actorEmail: string) {
    u.isStaff && u.isActive && u.email != actorEmail
  }

  /** The recipients: the emails of the active staff users other than the
      one who made the change, in table order. */
  function Recipients(users: seq<User>, actorEmail: string): (to: seq<string>)
    ensures forall e :: e in to <==> exists u :: u in users && Notified(u, actorEmail) && u.email == e
    ensures actorEmail !in to
    ensures |to| <= |users|
  {
    if users == [] then []
    else
      var last := users[|users| - 1];
      var to := Recipients(users[..|users| - 1], actorEmail);
      assert forall u :: u in users <==> u in users[..|users| - 1] || u == last;
      to + (if Notified(last, actorEmail) then [last.email] else [])
  }

  /** The admins filter followed by `[admin.email for admin in admins]`. */
  method CollectRecipients(users: seq<User>, actorEmail: string) returns (to: seq<string>)
    ensures to == Recipients(users, actorEmail)
  {
    to := [];
    for i := 0 to |users|
      invariant to == Recipients(users[..i], actorEmail)
    {
      assert users[..i + 1][..i] == users[..i];
      if Notified(users[i], actorEmail) {
        to := to + [users[i].email];
      }
    }
    assert users[..|users|] == users;
  }

  /** The messages `send_email` dispatches: none when nobody is to be told,
      otherwise exactly one carrying the subject, body and recipient list. */
  function Dispatches(to: seq<string>, p: Product, brandName: string, actor: User, now: string): (ts: seq<Tasks.Task>)
    ensures to == [] <==> ts == []
    ensures to != [] ==>
      (&& |ts| == 1 && ts[0].SendProductUpdateEmail? && ts[0].toEmails == to
       && ts[0].subject == Subject(p) && ts[0].content == Body(p, brandName, Some(actor), now))
  {
    if to == [] then [] else [Tasks.SendProductUpdateEmail(Subject(p), Body(p, brandName, Some(actor), now), to)]
  }

  /** `send_email`: dispatches the notification to every active staff user
      except `actor`, and dispatches nothing when there is no such user. */
  method SendEmail(catalog: Catalog.Store, users: UserStore, outbox: Tasks.Outbox, p: Product, actor: User, now: string)
    requires catalog.Valid() && p in catalog.products
    modifies outbox
    ensures outbox.sent == old(outbox.sent
      + Dispatches(Recipients(users.users, actor.email), p, catalog.BrandOf(p).name, actor, now))
  {
    var to := CollectRecipients(users.users, actor.email);
    var messages := Dispatches(to, p, catalog.BrandOf(p).name, actor, now);
    if messages != [] {
      outbox.Delay(messages[0]);
      assert messages == [messages[0]];
    }
  }

  /** One other active admin besides the modifier: the notification goes to
      that admin alone. */
  lemma OneOtherAdmin(modifier: User, admin: User)
    requires modifier.email != admin.email
    requires admin.isStaff && admin.isActive
    ensures Recipients([modifier, admin], modifier.email) == [admin.email]
  {
    assert [modifier, admin][..1] == [modifier];
    assert [modifier][..0] == [];
  }

  /** No other active admin: nothing is dispatched. */
  lemma {:induction false} NoOtherAdmin(users: seq<User>, actorEmail: string)
    requires forall u :: u in users ==> !Notified(u, actorEmail)
    ensures Recipients(users, actorEmail) == []
  {
    if users != [] {
      var init := users[..|users| - 1];
      assert forall u :: u in init ==> u in users;
      NoOtherAdmin(init, actorEmail);
    }
  }
}
