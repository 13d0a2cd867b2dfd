/**
 * The checkout drawer of components/CheckoutDrawer.tsx: the customer form, the
 * order summary sent through the messaging link, and the buttons that change the
 * quantities of the cart's lines. `toLocaleString` is a parameter (`locale`).
 */
module Checkout {
  import opened Opt
  import opened Text
  import opened Cart
  import WhatsApp

  /** The four inputs of the form. */
  datatype FormData = FormData(name: string, phone: string, address: string, notes: string)

  /** The `name` attribute of an input, which `handleInputChange` uses as the key to set. */
  datatype Field = Name | Phone | Address | Notes

  const EmptyForm := FormData("", "", "", "")

  function FieldValue(form: FormData, field: Field): string {
    match field
    case Name => form.name
    case Phone => form.phone
    case Address => form.address
    case Notes => form.notes
  }

  /** `{ ...prev, [name]: value }`: the named field gets `value`, the others keep theirs. */
  function WithField(form: FormData, field: Field, value: string): (r: FormData)
    ensures FieldValue(r, field) == value
    ensures forall other :: other != field ==> FieldValue(r, other) == FieldValue(form, other)
  {
    match field
    case Name => form.(name := value)
    case Phone => form.(phone := value)
    case Address => form.(address := value)
    case Notes => form.(notes := value)
  }

  /** The send button is enabled unless name, phone or address is empty. */
  predicate SubmitEnabled(form: FormData) {
    !(form.name == "" || form.phone == "" || form.address == "")
  }

  /** The button is enabled exactly when every field but the notes is filled in. */
  lemma SubmitEnabledIff(form: FormData)
    ensures SubmitEnabled(form) <==> forall f :: f != Notes ==> FieldValue(form, f) != ""
  {
    if !SubmitEnabled(form) {
      if form.name == "" {
        assert FieldValue(form, Name) == "";
      } else if form.phone == "" {
        assert FieldValue(form, Phone) == "";
      } else {
        assert FieldValue(form, Address) == "";
      }
    }
  }

  /** Typing in the notes never enables or disables the button. */
  lemma NotesOptional(form: FormData, value: string)
    ensures SubmitEnabled(WithField(form, Notes, value)) == SubmitEnabled(form)
  {
  }

  // ---------------------------------------------------------------------------
  // The order summary

  // The fixed lines of the summary. The long ones are written in pieces only to keep
  // the verifier's work on long string literals small; each constant is one line of text.
  const Greeting := "*Hola ISAROMAS! " + "Quiero realizar " + "el siguiente pedido:*"
  const DataHeader := "*Mis Datos:*"
  const PaymentHeader := "*Forma de Pago:*"
  const AliasLine := "Transferencia al " + "Alias: ISAROMAS.VENTAS"
  const ProofLine := "(Envío comprobante " + "a la brevedad)"
  const ImportantHeader := "*Importante:*"
  const ShippingWarning := "⚠️ El costo de " + "envío se confirmará " + "al momento de " + "procesar el pedido."
  const PaymentWarning := "⚠️ El pedido se " + "procesará únicamente " + "al recibir el " + "comprobante de pago."

  /** Amounts are written as "$" followed by `toLocaleString`. */
  function Dollars(locale: int -> string): int -> string {
    n => "$" + locale(n)
  }

  /** The order summary, built as the source's sequence of `+=` steps. */
  function OrderSummary(items: seq<CartItem>, totalPrice: int, form: FormData, locale: int -> string): string {
    var m0 := Greeting + "\n\n";
    var m1 := m0 + WhatsApp.ItemLines(items, Dollars(locale));
    var m2 := m1 + ("\n" + WhatsApp.TotalText("$" + locale(totalPrice)) + "\n\n");
    var m3 := m2 + (DataHeader + "\n");
    var m4 := m3 + ("Nombre: " + form.name + "\n");
    var m5 := m4 + ("Teléfono: " + form.phone + "\n");
    var m6 := m5 + ("Dirección/Zona: " + form.address + "\n");
    var m7 := if form.notes != "" then m6 + ("Notas: " + form.notes + "\n") else m6;
    var m8 := m7 + ("\n" + PaymentHeader + "\n");
    var m9 := m8 + (AliasLine + "\n");
    var m10 := m9 + (ProofLine + "\n\n");
    var m11 := m10 + (ImportantHeader + "\n");
    var m12 := m11 + (ShippingWarning + "\n");
    m12 + PaymentWarning
  }

  /** `generateWhatsAppMessage`, up to the percent-encoding of its result. */
  method GenerateWhatsAppMessage(items: seq<CartItem>, totalPrice: int, form: FormData, locale: int -> string)
    returns (message: string)
    ensures message == OrderSummary(items, totalPrice, form, locale)
  {
    var price := Dollars(locale);
    message := Greeting + "\n\n";
    var i := 0;
    while i < |items|
      invariant 0 <= i <= |items|
      invariant message == Greeting + "\n\n" + WhatsApp.ItemLines(items[..i], price)
    {
      var line := WhatsApp.ItemText(items[i], price);
      WhatsApp.ItemLinesSnoc(items[..i], items[i], price);
      assert items[..i + 1] == items[..i] + [items[i]];
      AppendAssoc(Greeting + "\n\n", WhatsApp.ItemLines(items[..i], price), line + "\n");
      message := message + (line + "\n");
      i := i + 1;
    }
    assert items[..i] == items;
    message := message + ("\n" + WhatsApp.TotalText("$" + locale(totalPrice)) + "\n\n");
    message := message + (DataHeader + "\n");
    message := message + ("Nombre: " + form.name + "\n");
    message := message + ("Teléfono: " + form.phone + "\n");
    message := message + ("Dirección/Zona: " + form.address + "\n");
    if form.notes != "" {
      message := message + ("Notas: " + form.notes + "\n");
    }
    message := message + ("\n" + PaymentHeader + "\n");
    message := message + (AliasLine + "\n");
    message := message + (ProofLine + "\n\n");
    message := message + (ImportantHeader + "\n");
    message := message + (ShippingWarning + "\n");
    message := message + PaymentWarning;
  }

  /** The customer's fields and every formatted amount are single lines. */
  predicate OneLineInputs(items: seq<CartItem>, totalPrice: int, form: FormData, locale: int -> string) {
    (forall k :: 0 <= k < |items| ==> WhatsApp.OneLineItem(items[k], Dollars(locale))) &&
    '\n' !in locale(totalPrice) &&
    '\n' !in form.name && '\n' !in form.phone && '\n' !in form.address && '\n' !in form.notes
  }

  /** The customer block: name, phone and address, then the notes only when they are non-empty. */
  function CustomerLines(form: FormData): seq<string> {
    [DataHeader, "Nombre: " + form.name, "Teléfono: " + form.phone, "Dirección/Zona: " + form.address] +
    (if form.notes != "" then ["Notas: " + form.notes] else [])
  }

  /** The payment block and the shipping warning, after a blank line. */
  const PaymentLines := ["", PaymentHeader, AliasLine, ProofLine, "", ImportantHeader, ShippingWarning]

  /** The lines of the summary that follow the item lines, up to the last warning. */
  function FooterLines(totalPrice: int, form: FormData, locale: int -> string): seq<string> {
    ["", WhatsApp.TotalText("$" + locale(totalPrice)), ""] + CustomerLines(form) + PaymentLines
  }

  /** The greeting, the item lines and the total, as the `+=` steps write them. */
  lemma HeadShape(g: string, itemTexts: seq<string>, total: string)
    ensures g + "\n\n" + Unlines(itemTexts) + ("\n" + total + "\n\n") ==
      Unlines([g, ""] + itemTexts + ["", total, ""])
  {
    UnlinesPair(g);
    UnlinesAppend([g, ""], itemTexts);
    UnlinesBlankLineBlank([g, ""] + itemTexts, total);
  }

  /** The customer block, as the `+=` steps write it after any earlier lines. */
  lemma CustomerShape(lines: seq<string>, header: string, name: string, phone: string, address: string,
                      hasNotes: bool, notes: string)
    ensures
      var m := Unlines(lines) + (header + "\n") + (name + "\n") + (phone + "\n") + (address + "\n");
      (if hasNotes then m + (notes + "\n") else m) ==
      Unlines(lines + ([header, name, phone, address] + (if hasNotes then [notes] else [])))
  {
    var l1 := lines + [header];
    UnlinesLine(lines, header);
    var l2 := l1 + [name];
    UnlinesLine(l1, name);
    var l3 := l2 + [phone];
    UnlinesLine(l2, phone);
    var l4 := l3 + [address];
    UnlinesLine(l3, address);
    if hasNotes {
      UnlinesLine(l4, notes);
      assert l4 + [notes] == lines + ([header, name, phone, address] + [notes]);
    } else {
      assert l4 == lines + ([header, name, phone, address] + []);
    }
  }

  /** The payment block, as the `+=` steps write it after any earlier lines. */
  lemma PaymentShape(lines: seq<string>, payment: string, alias: string, proof: string, important: string,
                     shipping: string)
    ensures Unlines(lines) + ("\n" + payment + "\n") + (alias + "\n") + (proof + "\n\n") +
      (important + "\n") + (shipping + "\n") ==
      Unlines(lines + ["", payment, alias, proof, "", important, shipping])
  {
    var l1 := lines + ["", payment];
    UnlinesBlankLine(lines, payment);
    var l2 := l1 + [alias];
    UnlinesLine(l1, alias);
    var l3 := l2 + [proof, ""];
    UnlinesLineBlank(l2, proof);
    var l4 := l3 + [important];
    UnlinesLine(l3, important);
    var l5 := l4 + [shipping];
    UnlinesLine(l4, shipping);
    assert l5 == lines + ["", payment, alias, proof, "", important, shipping];
  }

  lemma LinesAssoc(a: seq<string>, b: seq<string>, c: seq<string>, d: seq<string>)
    ensures a + b + c + d == a + (b + c + d)
  {
  }

  /** The summary is its lines written one after the other, then the last warning. */
  lemma OrderSummaryUnlines(items: seq<CartItem>, totalPrice: int, form: FormData, locale: int -> string)
    ensures OrderSummary(items, totalPrice, form, locale) ==
      Unlines([Greeting, ""] + WhatsApp.ItemTexts(items, Dollars(locale)) + FooterLines(totalPrice, form, locale)) +
      PaymentWarning
  {
    var texts := WhatsApp.ItemTexts(items, Dollars(locale));
    var total := WhatsApp.TotalText("$" + locale(totalPrice));
    var l1 := [Greeting, ""] + texts + ["", total, ""];
    HeadShape(Greeting, texts, total);
    var l2 := l1 + CustomerLines(form);
    CustomerShape(l1, DataHeader, "Nombre: " + form.name, "Teléfono: " + form.phone,
      "Dirección/Zona: " + form.address, form.notes != "", "Notas: " + form.notes);
    PaymentShape(l2, PaymentHeader, AliasLine, ProofLine, ImportantHeader, ShippingWarning);
    LinesAssoc([Greeting, ""] + texts, ["", total, ""], CustomerLines(form), PaymentLines);
  }

  lemma GreetingOneLine() ensures '\n' !in Greeting {}
  lemma AliasOneLine() ensures '\n' !in AliasLine {}
  lemma ProofOneLine() ensures '\n' !in ProofLine {}
  lemma ShippingOneLine() ensures '\n' !in ShippingWarning {}
  lemma PaymentOneLine() ensures '\n' !in PaymentWarning {}

  /** With single-line inputs, no footer line holds a newline. */
  lemma FooterOneLine(totalPrice: int, form: FormData, locale: int -> string)
    requires '\n' !in locale(totalPrice)
    requires '\n' !in form.name && '\n' !in form.phone && '\n' !in form.address && '\n' !in form.notes
    ensures forall k :: 0 <= k < |FooterLines(totalPrice, form, locale)| ==> '\n' !in FooterLines(totalPrice, form, locale)[k]
  {
    AliasOneLine();
    ProofOneLine();
    ShippingOneLine();
    var f := FooterLines(totalPrice, form, locale);
    var c := CustomerLines(form);
    forall k | 0 <= k < |f| ensures '\n' !in f[k] {
      if 3 <= k < 3 + |c| {
        assert f[k] == c[k - 3];
      } else if k >= 3 + |c| {
        assert f[k] == PaymentLines[k - 3 - |c|];
      }
    }
  }

  /**
   * The summary is the greeting line, a blank line, one bullet line per item in
   * item order, the total, the customer block (name, phone, address, then the notes
   * only when present), the payment block and the two warnings, the last one
   * without a trailing newline.
   */
  lemma OrderSummaryLines(items: seq<CartItem>, totalPrice: int, form: FormData, locale: int -> string)
    requires OneLineInputs(items, totalPrice, form, locale)
    ensures Lines(OrderSummary(items, totalPrice, form, locale)) ==
      [Greeting, ""] + WhatsApp.ItemTexts(items, Dollars(locale)) + FooterLines(totalPrice, form, locale) + [PaymentWarning]
  {
    PaymentOneLine();
    SummaryLinesOneLine(items, totalPrice, form, locale);
    OrderSummaryUnlines(items, totalPrice, form, locale);
    LinesOfText([Greeting, ""] + WhatsApp.ItemTexts(items, Dollars(locale)) + FooterLines(totalPrice, form, locale),
      PaymentWarning);
  }

  /** With single-line inputs, no line of the summary holds a newline. */
  lemma SummaryLinesOneLine(items: seq<CartItem>, totalPrice: int, form: FormData, locale: int -> string)
    requires OneLineInputs(items, totalPrice, form, locale)
    ensures var lines := [Greeting, ""] + WhatsApp.ItemTexts(items, Dollars(locale)) + FooterLines(totalPrice, form, locale);
      forall k :: 0 <= k < |lines| ==> '\n' !in lines[k]
  {
    var texts := WhatsApp.ItemTexts(items, Dollars(locale));
    var footer := FooterLines(totalPrice, form, locale);
    var lines := [Greeting, ""] + texts + footer;
    GreetingOneLine();
    PaymentOneLine();
    FooterOneLine(totalPrice, form, locale);
    forall k | 0 <= k < |lines| ensures '\n' !in lines[k] {
      if 2 <= k < 2 + |texts| {
        WhatsApp.ItemTextOneLine(items[k - 2], Dollars(locale));
      } else if k >= 2 + |texts| {
        assert lines[k] == footer[k - 2 - |texts|];
      }
    }
  }

  /** The notes line is in the summary exactly when the notes are non-empty. */
  lemma NotesLineIff(totalPrice: int, form: FormData, locale: int -> string)
    ensures ("Notas: " + form.notes in FooterLines(totalPrice, form, locale)) <==> form.notes != ""
  {
    var line := "Notas: " + form.notes;
    if form.notes == "" {
      var f := FooterLines(totalPrice, form, locale);
      forall k | 0 <= k < |f| ensures f[k] != line {
        assert |f[k]| != |line|;
      }
    } else {
      assert CustomerLines(form)[4] == line;
      assert FooterLines(totalPrice, form, locale)[7] == line;
    }
  }

  // ---------------------------------------------------------------------------
  // The drawer's state and handlers

  class CheckoutDrawer {
    const cart: CartEngine
    var formData: FormData

    constructor (cart: CartEngine)
      ensures this.cart == cart && formData == EmptyForm
    {
      this.cart := cart;
      formData := EmptyForm;
    }

    method HandleInputChange(field: Field, value: string)
      modifies this
      ensures formData == WithField(old(formData), field, value)
    {
      formData := WithField(formData, field, value);
    }

    /**
     * `handleCheckout`: nothing happens for an empty cart; otherwise the summary is
     * handed to the messaging link (returned here). No `modifies` clause: the cart is
     * neither cleared nor closed.
     */
    method HandleCheckout(locale: int -> string) returns (sent: Option<string>)
      ensures |cart.items| == 0 ==> sent == None
      ensures |cart.items| > 0 ==> sent == Some(OrderSummary(cart.items, cart.PriceTotal(), formData, locale))
    {
      if |cart.items| == 0 {
        return None;
      }
      var message := GenerateWhatsAppMessage(cart.items, cart.PriceTotal(), formData, locale);
      sent := Some(message);
    }

    /**
     * The "-" button of line `i`: one less, through updateQuantity. On a well-formed
     * cart, a line at 1 disappears and any other line drops by one.
     */
    method DecreaseQuantity(i: nat)
      requires i < |cart.items|
      modifies cart
      ensures var it := old(cart.items[i]);
        cart.items == WithUpdate(old(cart.items), it.product.id, it.quantity - 1, it.variant)
      ensures cart.isCartOpen == old(cart.isCartOpen)
      ensures old(cart.Valid()) ==> cart.Valid()
      ensures old(cart.Valid()) && old(cart.items[i].quantity) == 1 ==>
        cart.items == old(cart.items[..i] + cart.items[i + 1..])
      ensures old(cart.Valid()) && old(cart.items[i].quantity) > 1 ==>
        cart.items == old(cart.items[i := cart.items[i].(quantity := cart.items[i].quantity - 1)])
    {
      var item := cart.items[i];
      if cart.Valid() {
        if item.quantity == 1 {
          DecreaseAtOneRemoves(cart.items, i);
        } else {
          DecreaseAboveOne(cart.items, i);
        }
      }
      cart.UpdateQuantity(item.product.id, item.quantity - 1, item.variant);
    }

    /** The "+" button of line `i`: one more, through updateQuantity; on a well-formed cart only that line changes. */
    method IncreaseQuantity(i: nat)
      requires i < |cart.items|
      modifies cart
      ensures var it := old(cart.items[i]);
        cart.items == WithUpdate(old(cart.items), it.product.id, it.quantity + 1, it.variant)
      ensures cart.isCartOpen == old(cart.isCartOpen)
      ensures old(cart.Valid()) ==> cart.Valid()
      ensures old(cart.Valid()) ==>
        cart.items == old(cart.items[i := cart.items[i].(quantity := cart.items[i].quantity + 1)])
    {
      var item := cart.items[i];
      if cart.Valid() {
        IncreaseByOne(cart.items, i);
      }
      cart.UpdateQuantity(item.product.id, item.quantity + 1, item.variant);
    }

    /** The "Eliminar" button of line `i`; on a well-formed cart exactly that line goes. */
    method RemoveItem(i: nat)
      requires i < |cart.items|
      modifies cart
      ensures var it := old(cart.items[i]);
        cart.items == WithoutLine(old(cart.items), it.product.id, it.variant)
      ensures cart.isCartOpen == old(cart.isCartOpen)
      ensures old(cart.Valid()) ==> cart.Valid()
      ensures old(cart.Valid()) ==> cart.items == old(cart.items[..i] + cart.items[i + 1..])
    {
      var item := cart.items[i];
      if cart.Valid() {
        RemoveOne(cart.items, i);
      }
      cart.RemoveFromCart(item.product.id, item.variant);
    }
  }

  /** At quantity 1 the "-" button removes the line and nothing else. */
  lemma DecreaseAtOneRemoves(items: seq<CartItem>, i: nat)
    requires i < |items| && KeysUnique(items) && items[i].quantity == 1
    ensures WithUpdate(items, items[i].product.id, items[i].quantity - 1, items[i].variant) ==
      items[..i] + items[i + 1..]
  {
    RemoveOne(items, i);
  }

  /** Above quantity 1 the "-" button lowers that line by one and leaves the others. */
  lemma DecreaseAboveOne(items: seq<CartItem>, i: nat)
    requires i < |items| && KeysUnique(items) && items[i].quantity > 1
    ensures WithUpdate(items, items[i].product.id, items[i].quantity - 1, items[i].variant) ==
      items[i := items[i].(quantity := items[i].quantity - 1)]
  {
    UpdateOne(items, i, items[i].quantity - 1);
  }

  /** The "+" button raises that line by one and leaves the others. */
  lemma IncreaseByOne(items: seq<CartItem>, i: nat)
    requires i < |items| && KeysUnique(items) && items[i].quantity >= 1
    ensures WithUpdate(items, items[i].product.id, items[i].quantity + 1, items[i].variant) ==
      items[i := items[i].(quantity := items[i].quantity + 1)]
  {
    UpdateOne(items, i, items[i].quantity + 1);
  }
}
