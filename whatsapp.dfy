/**
 * The order message of utils/whatsapp.ts. The price formatter the source imports
 * is a parameter, so every property below holds whatever it prints.
 */
module WhatsApp {
  import opened Opt
  import opened Text
  import opened Products
  import opened Cart
  import opened Seqs

  /** The first line of the cart message, written in two pieces only to keep the verifier's work small. */
  const Greeting := "*Hola ISAROMA! Quiero " + "realizar el siguiente pedido:*"

  /** Aroma, color and size in that order, leaving out the ones the variant does not have. */
  function PresentValues(v: Variant): (r: seq<string>)
    ensures 1 <= |r| <= 3 && r[0] == v.aroma
  {
    [v.aroma] + (if v.color.Some? then [v.color.value] else []) + (if v.size.Some? then [v.size.value] else [])
  }

  /** Among aroma, color and size, the values that are present and non-empty, in that order. */
  function DetailValues(v: Variant): (r: seq<string>)
    ensures |r| <= 3
    ensures forall x :: x in r <==> x != "" && (x == v.aroma || v.color == Some(x) || v.size == Some(x))
    ensures v.aroma != "" ==> |r| >= 1 && r[0] == v.aroma
    ensures v.size.Some? && v.size.value != "" ==> |r| >= 1 && r[|r| - 1] == v.size.value
  {
    (if v.aroma != "" then [v.aroma] else []) +
    (if v.color.Some? && v.color.value != "" then [v.color.value] else []) +
    (if v.size.Some? && v.size.value != "" then [v.size.value] else [])
  }

  /**
   * The details are the present values with the empty ones dropped: kept in their order,
   * each non-empty value as often as the variant has it, and no empty one.
   */
  lemma DetailValuesDropEmpty(v: Variant)
    ensures DetailValues(v) == Without(PresentValues(v), "")
    ensures IsSubsequence(DetailValues(v), PresentValues(v))
    ensures forall x :: multiset(DetailValues(v))[x] == (if x == "" then 0 else multiset(PresentValues(v))[x])
  {
    DetailValuesAsWithout(v);
    WithoutCounts(PresentValues(v), "");
  }

  /** `filter(Boolean)` over the present values, one field at a time. */
  lemma DetailValuesAsWithout(v: Variant)
    ensures DetailValues(v) == Without(PresentValues(v), "")
  {
    var aroma: seq<string> := [v.aroma];
    var color: seq<string> := if v.color.Some? then [v.color.value] else [];
    var size: seq<string> := if v.size.Some? then [v.size.value] else [];
    WithoutAppend(aroma + color, size, "");
    WithoutAppend(aroma, color, "");
    WithoutSingleton(v.aroma, "");
    if v.color.Some? { WithoutSingleton(v.color.value, ""); }
    if v.size.Some? { WithoutSingleton(v.size.value, ""); }
  }

  /** A value repeated across fields is listed once per field. */
  lemma DetailValuesKeepRepeats()
    ensures DetailValues(Variant("x", Some("x"), Some("y"), None)) == ["x", "x", "y"]
  {
  }

  /** The parenthesised variant details, or nothing for a line without a variant. */
  function VariantPart(variant: Option<Variant>): string {
    match variant
    case None => ""
    case Some(v) => " (" + Join(DetailValues(v), ", ") + ")"
  }

  /** The bullet line of one cart item, without its newline; `price` formats the line total. */
  function ItemText(item: CartItem, price: int -> string): string {
    "• " + IntToDecimal(item.quantity) + "x " + item.product.name + VariantPart(item.variant) +
    " - " + price(item.product.price * item.quantity)
  }

  /** The bullet texts, one per item, in item order. */
  function ItemTexts(items: seq<CartItem>, price: int -> string): (r: seq<string>)
    ensures |r| == |items|
  {
    seq(|items|, k requires 0 <= k < |items| => ItemText(items[k], price))
  }

  /** The bullet lines of all items, each followed by a newline. */
  function ItemLines(items: seq<CartItem>, price: int -> string): string {
    Unlines(ItemTexts(items, price))
  }

  /** The total line, around the formatted total. */
  function TotalText(total: string): string {
    "*Total: " + total + "*"
  }

  /** The whole cart message. */
  function CartMessage(items: seq<CartItem>, totalPrice: int, formatPrice: int -> string): string {
    Greeting + "\n\n" + ItemLines(items, formatPrice) + ("\n" + TotalText(formatPrice(totalPrice)) + "\n\n")
  }

  /** Appending an item appends its bullet line. */
  lemma ItemLinesSnoc(items: seq<CartItem>, x: CartItem, price: int -> string)
    ensures ItemLines(items + [x], price) == ItemLines(items, price) + (ItemText(x, price) + "\n")
  {
    assert ItemTexts(items + [x], price) == ItemTexts(items, price) + [ItemText(x, price)];
    UnlinesSnoc(ItemTexts(items, price), ItemText(x, price));
    AppendAssoc(ItemLines(items, price), ItemText(x, price), "\n");
  }

  /** `generateCartMessage`: the greeting, one `+=` per item, then the total. */
  method GenerateCartMessage(items: seq<CartItem>, totalPrice: int, formatPrice: int -> string)
    returns (message: string)
    ensures message == CartMessage(items, totalPrice, formatPrice)
  {
    message := Greeting + "\n\n";
    var i := 0;
    while i < |items|
      invariant 0 <= i <= |items|
      invariant message == Greeting + "\n\n" + ItemLines(items[..i], formatPrice)
    {
      var line := ItemText(items[i], formatPrice);
      ItemLinesSnoc(items[..i], items[i], formatPrice);
      assert items[..i + 1] == items[..i] + [items[i]];
      AppendAssoc(Greeting + "\n\n", ItemLines(items[..i], formatPrice), line + "\n");
      message := message + (line + "\n");
      i := i + 1;
    }
    assert items[..i] == items;
    message := message + ("\n" + TotalText(formatPrice(totalPrice)) + "\n\n");
  }

  // ---------------------------------------------------------------------------
  // Layout of the message

  /** The greeting is a single line. */
  lemma GreetingOneLine()
    ensures '\n' !in Greeting
  {
  }

  /** The item's own texts hold no newline, so its bullet text is one line. */
  predicate OneLineItem(item: CartItem, price: int -> string) {
    '\n' !in item.product.name && '\n' !in price(item.product.price * item.quantity) &&
    (item.variant.Some? ==>
      var v := item.variant.value;
      '\n' !in v.aroma && (v.color.Some? ==> '\n' !in v.color.value) && (v.size.Some? ==> '\n' !in v.size.value))
  }

  /** A bullet text has a newline only if one of the item's own texts has. */
  lemma ItemTextOneLine(item: CartItem, price: int -> string)
    requires OneLineItem(item, price)
    ensures '\n' !in ItemText(item, price)
  {
    if '\n' in IntToDecimal(item.quantity) {
      DecimalChars(item.quantity, '\n');
    }
    if item.variant.Some? && '\n' in Join(DetailValues(item.variant.value), ", ") {
      JoinChars(DetailValues(item.variant.value), ", ", '\n');
    }
  }

  /** The bullet lines followed by `rest` split into the bullet texts and the lines of `rest`. */
  lemma ItemLinesSplit(items: seq<CartItem>, price: int -> string, rest: string)
    requires forall k :: 0 <= k < |items| ==> OneLineItem(items[k], price)
    ensures Lines(ItemLines(items, price) + rest) == ItemTexts(items, price) + Lines(rest)
  {
    var texts := ItemTexts(items, price);
    forall k | 0 <= k < |texts| ensures '\n' !in texts[k] {
      ItemTextOneLine(items[k], price);
    }
    LinesOfUnlines(texts, rest);
  }

  /**
   * The message is the greeting line, a blank line, exactly one bullet line per item
   * in item order, a blank line and the total line, and it ends with two newlines.
   */
  lemma CartMessageLines(items: seq<CartItem>, totalPrice: int, formatPrice: int -> string)
    requires forall k :: 0 <= k < |items| ==> OneLineItem(items[k], formatPrice)
    requires '\n' !in formatPrice(totalPrice)
    ensures Lines(CartMessage(items, totalPrice, formatPrice)) ==
      [Greeting, ""] + ItemTexts(items, formatPrice) + ["", TotalText(formatPrice(totalPrice)), "", ""]
  {
    var texts := ItemTexts(items, formatPrice);
    var t := TotalText(formatPrice(totalPrice));
    var lines := [Greeting, ""] + texts + ["", t, ""];
    GreetingOneLine();
    assert '\n' !in t;
    forall k | 0 <= k < |texts| ensures '\n' !in texts[k] {
      ItemTextOneLine(items[k], formatPrice);
    }
    UnlinesPair(Greeting);
    UnlinesAppend([Greeting, ""], texts);
    UnlinesBlankLineBlank([Greeting, ""] + texts, t);
    LinesOfText(lines, "");
    assert Unlines(lines) + "" == Unlines(lines);
  }

  /** The message opens with the greeting line and a blank line. */
  lemma CartMessageStart(items: seq<CartItem>, totalPrice: int, formatPrice: int -> string)
    ensures CartMessage(items, totalPrice, formatPrice)[..|Greeting| + 2] == Greeting + "\n\n"
  {
  }

  /** The message closes with the total line and two newlines. */
  lemma CartMessageEnd(items: seq<CartItem>, totalPrice: int, formatPrice: int -> string)
    ensures var m := CartMessage(items, totalPrice, formatPrice);
      var t := "\n" + TotalText(formatPrice(totalPrice)) + "\n\n";
      |m| >= |t| && m[|m| - |t|..] == t
  {
  }

  /** The parenthesised part appears exactly when the item has a variant. */
  lemma VariantShownIff(item: CartItem, price: int -> string)
    requires '(' !in item.product.name && '(' !in price(item.product.price * item.quantity)
    ensures '(' in ItemText(item, price) <==> item.variant.Some?
  {
    if '(' in IntToDecimal(item.quantity) {
      DecimalChars(item.quantity, '(');
    }
    if item.variant.Some? {
      var text := ItemText(item, price);
      var before := "• " + IntToDecimal(item.quantity) + "x " + item.product.name;
      assert text == before + (" (" + Join(DetailValues(item.variant.value), ", ") + ")") + " - " + price(item.product.price * item.quantity);
      assert text[|before| + 1] == '(';
    }
  }

  /** The start of a bullet text: bullet, quantity and product name. */
  function ItemHead(item: CartItem): string {
    "• " + IntToDecimal(item.quantity) + "x " + item.product.name
  }

  /** The end of a bullet text: the formatted line total. */
  function ItemTail(item: CartItem, price: int -> string): string {
    " - " + price(item.product.price * item.quantity)
  }

  /**
   * Every bullet text is its bare form, head then tail, with the variant part between
   * them; the variant part is empty exactly for a line without a variant, and otherwise
   * is the details in parentheses after a space.
   */
  lemma ItemTextParts(item: CartItem, price: int -> string)
    ensures ItemText(item, price) == ItemHead(item) + VariantPart(item.variant) + ItemTail(item, price)
    ensures ItemText(item.(variant := None), price) == ItemHead(item) + ItemTail(item, price)
    ensures VariantPart(item.variant) == "" <==> item.variant.None?
    ensures item.variant.Some? ==>
      var part := VariantPart(item.variant);
      |part| >= 3 && part[..2] == " (" && part[|part| - 1] == ')' &&
      part[2..|part| - 1] == Join(DetailValues(item.variant.value), ", ")
  {
    var h := "• " + IntToDecimal(item.quantity) + "x ";
    assert ItemText(item, price) == h + item.product.name + VariantPart(item.variant) + ItemTail(item, price);
    assert ItemText(item.(variant := None), price) == h + item.product.name + "" + ItemTail(item, price);
    assert h + item.product.name + "" == h + item.product.name;
  }

  /** A "(" in the product name shows up in a bullet that has no variant. */
  lemma ParenFromNameAlone(price: int -> string)
    ensures '(' in ItemText(CartItem(CartProduct("v", "(", 0, ""), 1, None), price)
  {
    var item := CartItem(CartProduct("v", "(", 0, ""), 1, None);
    ItemTextParts(item, price);
    assert ItemHead(item)[|ItemHead(item)| - 1] == '(';
  }

  /** The gender of a variant never reaches the message. */
  lemma GenderNeverShown(item: CartItem, gender: Option<string>, price: int -> string)
    requires item.variant.Some?
    ensures ItemText(item.(variant := Some(item.variant.value.(gender := gender))), price) == ItemText(item, price)
  {
  }
}
