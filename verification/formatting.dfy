/**
 * Text helpers for the Telegram messages (app/utils/formatting.py): name truncation,
 * Markdown escaping, order-status labels, the description and stock lines of a product
 * card, the empty-cart summary and breadcrumbs. Price and date formatting are not modelled.
 */
module Formatting {
  import opened Text
  import opened Catalog
  import opened CartStore
  import opened Orders

  /** `format_product_name` (default max_length 40): long names are cut and end in "...". */
  function FormatProductName(name: string, maxLength: int): (r: string)
    ensures |name| <= maxLength ==> r == name
    ensures |name| > maxLength >= 3 ==> |r| == maxLength && r == name[..maxLength - 3] + "..."
  {
    if |name| <= maxLength then name else SliceTo(name, maxLength - 3) + "..."
  }

  /** The characters `escape_markdown` puts a backslash in front of. */
  const MARKDOWN_SPECIAL := "_*[]()~`>#+-=|{}.!"

  predicate IsMarkdownSpecial(c: char) { c in MARKDOWN_SPECIAL }

  /** How many characters of `s` are in the escape set. */
  function SpecialCount(s: string): nat
  {
    if s == [] then 0 else (if IsMarkdownSpecial(s[0]) then 1 else 0) + SpecialCount(s[1..])
  }

  /**
   * `escape_markdown`: a backslash before every character of the escape set, nothing else
   * changed; so the text grows by one character per escaped one, and every special
   * character of the result directly follows a backslash.
   */
  function EscapeMarkdown(text: string): (r: string)
    ensures |r| == |text| + SpecialCount(text)
    ensures forall i :: 0 <= i < |r| && IsMarkdownSpecial(r[i]) ==> i > 0 && r[i - 1] == '\\'
  {
    if text == [] then []
    else
      var head := if IsMarkdownSpecial(text[0]) then ['\\', text[0]] else [text[0]];
      var rest := EscapeMarkdown(text[1..]);
      var r := head + rest;
      assert forall i :: |head| <= i < |r| ==> r[i] == rest[i - |head|];
      r
  }

  /** The reading Telegram applies: a backslash before a special character is dropped. */
  function UnescapeMarkdown(s: string): string
  {
    if s == [] then []
    else if |s| >= 2 && s[0] == '\\' && IsMarkdownSpecial(s[1]) then [s[1]] + UnescapeMarkdown(s[2..])
    else [s[0]] + UnescapeMarkdown(s[1..])
  }

  /** Removing the inserted backslashes gives back the text. */
  lemma {:induction false} MarkdownRoundTrip(text: string)
    ensures UnescapeMarkdown(EscapeMarkdown(text)) == text
  {
    if text != [] {
      MarkdownRoundTrip(text[1..]);
      var rest := EscapeMarkdown(text[1..]);
      if IsMarkdownSpecial(text[0]) {
        assert EscapeMarkdown(text) == ['\\', text[0]] + rest;
        assert EscapeMarkdown(text)[2..] == rest;
      } else {
        assert EscapeMarkdown(text) == [text[0]] + rest;
        assert EscapeMarkdown(text)[1..] == rest;
        if text[0] == '\\' && rest != [] {
          assert !IsMarkdownSpecial(rest[0]);
        }
      }
    }
  }

  const STATUS_EMOJIS: map<string, string> := map[
    "pending" := "⏳", "paid" := "✅", "cancelled" := "❌", "refunded" := "💸", "completed" := "🎉"]
  const UNKNOWN_EMOJI := "❓"

  const STATUS_TEXTS: map<string, string> := map[
    "pending" := "Ожидает оплаты", "paid" := "Оплачен", "cancelled" := "Отменен",
    "refunded" := "Возврат средств", "completed" := "Выполнен"]
  const UNKNOWN_TEXT := "Неизвестно"

  /** `get_status_emoji`: the status's emoji, "❓" for any other string. */
  function StatusEmoji(status: string): (r: string)
    ensures status in STATUS_EMOJIS ==> r == STATUS_EMOJIS[status]
    ensures status !in STATUS_EMOJIS ==> r == UNKNOWN_EMOJI
  {
    if status in STATUS_EMOJIS then STATUS_EMOJIS[status] else UNKNOWN_EMOJI
  }

  /** `get_status_text`: the status's Russian name, "Неизвестно" for any other string. */
  function StatusText(status: string): (r: string)
    ensures status in STATUS_TEXTS ==> r == STATUS_TEXTS[status]
    ensures status !in STATUS_TEXTS ==> r == UNKNOWN_TEXT
  {
    if status in STATUS_TEXTS then STATUS_TEXTS[status] else UNKNOWN_TEXT
  }

  /**
   * Both labels tell a known status apart from every other string: a known status shares
   * its text, and its emoji, with no other status and never shows the fallback.
   */
  lemma StatusLabelsIdentify(a: string, b: string)
    requires a in STATUS_TEXTS
    ensures StatusText(a) != UNKNOWN_TEXT && StatusEmoji(a) != UNKNOWN_EMOJI
    ensures StatusText(a) == StatusText(b) ==> a == b
    ensures StatusEmoji(a) == StatusEmoji(b) ==> a == b
  {
  }

  /** Every status the order table writes has its own label. */
  lemma OrderStatusesLabelled()
    ensures PENDING in STATUS_TEXTS && PAID in STATUS_TEXTS && CANCELLED in STATUS_TEXTS
    ensures StatusText(PENDING) == "Ожидает оплаты" && StatusText(PAID) == "Оплачен"
    ensures StatusText(CANCELLED) == "Отменен"
  {
  }

  const NO_DESCRIPTION := "Описание отсутствует"
  const IN_STOCK_TEXT := "В наличии"
  const OUT_OF_STOCK_TEXT := "Нет в наличии"

  /**
   * The description shown on a product card (`format_product_card`, default
   * description_length 300): a missing or empty description is replaced by the placeholder,
   * and one longer than the limit is cut to the limit and ends in "...".
   */
  function CardDescription(description: Option<string>, descriptionLength: int): (r: string)
    ensures Truthy(description) && |description.value| <= descriptionLength ==> r == description.value
    ensures Truthy(description) && |description.value| > descriptionLength >= 0 ==>
      r == description.value[..descriptionLength] + "..." && |r| == descriptionLength + 3
    ensures !Truthy(description) && descriptionLength >= |NO_DESCRIPTION| ==> r == NO_DESCRIPTION
  {
    var desc := if Truthy(description) then description.value else NO_DESCRIPTION;
    if |desc| > descriptionLength then SliceTo(desc, descriptionLength) + "..." else desc
  }

  /** The card's stock line: emoji and text. */
  datatype StockLine = StockLine(emoji: string, text: string)

  function CardStock(quantity: int): (r: StockLine)
    ensures r.text == IN_STOCK_TEXT <==> quantity > 0
    ensures r.emoji == "✅" <==> quantity > 0
  {
    if quantity > 0 then StockLine("✅", IN_STOCK_TEXT) else StockLine("❌", OUT_OF_STOCK_TEXT)
  }

  /** The card calls a product available exactly when the catalog does. */
  lemma CardStockAgreesWithCatalog(p: Product)
    ensures CardStock(p.quantity).text == IN_STOCK_TEXT <==> InStock(p)
  {
  }

  const EMPTY_CART := "🛒 <b>Ваша корзина пуста</b>"

  /**
   * `format_cart_summary`: an empty cart gives the fixed empty-cart text. For a non-empty
   * cart the item formatter reads the product's name as an attribute of what the cart
   * service stores as a dictionary, so it raises.
   */
  function CartSummary(cart: CartView): (r: Call<string>)
    ensures r.Returned? <==> cart.items == []
    ensures r.Returned? ==> r.value == EMPTY_CART
  {
    if cart.items == [] then Returned(EMPTY_CART) else Raised
  }

  const CRUMB_SEPARATOR := " › "

  /** `breadcrumbs`: the path joined with " › ". */
  function Breadcrumbs(path: seq<string>): string
  {
    Join(path, CRUMB_SEPARATOR)
  }

  function TotalLength(parts: seq<string>): nat
  {
    if parts == [] then 0 else TotalLength(parts[..|parts| - 1]) + |parts[|parts| - 1]|
  }

  /** The trail holds every element once, in order, with one separator between neighbours. */
  lemma {:induction false} BreadcrumbsLength(path: seq<string>)
    requires path != []
    ensures |Breadcrumbs(path)| == TotalLength(path) + |CRUMB_SEPARATOR| * (|path| - 1)
    ensures path[0] <= Breadcrumbs(path)
    ensures |path[|path| - 1]| <= |Breadcrumbs(path)|
    ensures Breadcrumbs(path)[|Breadcrumbs(path)| - |path[|path| - 1]|..] == path[|path| - 1]
  {
    if |path| > 1 {
      var init := path[..|path| - 1];
      BreadcrumbsLength(init);
      assert init[0] == path[0];
      var b := Breadcrumbs(init) + CRUMB_SEPARATOR;
      assert Breadcrumbs(path) == b + path[|path| - 1];
      assert (b + path[|path| - 1])[..|b|] == b;
    }
  }
}
