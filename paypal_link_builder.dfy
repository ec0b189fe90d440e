/**
 * The payment-link builder (class PaypalLinkBuilder): a parameter map that
 * setters fill in place, an item counter handing out `i1`, `i2`, ... and a
 * count of custom options, rendered as the base URL followed by the
 * encoded parameters.
 */
module LinkBuilder {
  import opened PhpArrays

  const DEFAULT_BASE_URL := "https://www.paypal.com/cgi-bin/webscr?"

  /** A parameter value as PHP holds it before `http_build_query` encodes it. */
  datatype Value = Str(s: string) | Int(i: int) | Float(r: real) | Bool(b: bool)

  function ItemNameKey(k: nat): string { "item_name_" + NatToString(k) }

  function AmountKey(k: nat): string { "amount_" + NatToString(k) }

  function QuantityKey(k: nat): string { "quantity_" + NatToString(k) }

  /** The reference `addItem` returns for item `k`. */
  function ItemToken(k: nat): string { "i" + NatToString(k) }

  function OptionNameKey(index: int): string { "on" + IntToString(index) }

  function OptionSelectKey(index: int): string { "os" + IntToString(index) }

  /** The keys written for different items never coincide, and neither do the tokens. */
  lemma {:induction false} ItemKeysDistinct(j: nat, k: nat)
    requires j != k
    ensures ItemNameKey(j) != ItemNameKey(k)
    ensures AmountKey(j) != AmountKey(k)
    ensures QuantityKey(j) != QuantityKey(k)
    ensures ItemToken(j) != ItemToken(k)
  {
    if ItemNameKey(j) == ItemNameKey(k) {
      PrefixCancel("item_name_", NatToString(j), NatToString(k));
      NatToStringInjective(j, k);
    }
    if AmountKey(j) == AmountKey(k) {
      PrefixCancel("amount_", NatToString(j), NatToString(k));
      NatToStringInjective(j, k);
    }
    if QuantityKey(j) == QuantityKey(k) {
      PrefixCancel("quantity_", NatToString(j), NatToString(k));
      NatToStringInjective(j, k);
    }
    if ItemToken(j) == ItemToken(k) {
      PrefixCancel("i", NatToString(j), NatToString(k));
      NatToStringInjective(j, k);
    }
  }

  /** The keys of item `j` differ from every key written for item `k`, and from `upload`. */
  lemma ItemKeysApart(j: nat, k: nat)
    requires j != k
    ensures ItemNameKey(j) !in {"upload", ItemNameKey(k), AmountKey(k), QuantityKey(k)}
    ensures AmountKey(j) !in {"upload", ItemNameKey(k), AmountKey(k), QuantityKey(k)}
    ensures QuantityKey(j) !in {"upload", ItemNameKey(k), AmountKey(k), QuantityKey(k)}
  {
    ItemKeysDistinct(j, k);
    assert ItemNameKey(j)[0] == 'i' && AmountKey(j)[0] == 'a' && QuantityKey(j)[0] == 'q';
    assert ItemNameKey(k)[0] == 'i' && AmountKey(k)[0] == 'a' && QuantityKey(k)[0] == 'q';
  }

  /** The keys of custom option `index` are distinct from each other and from `option_index`. */
  lemma OptionKeysApart(index: int)
    ensures OptionNameKey(index) != OptionSelectKey(index)
    ensures OptionNameKey(index) != "option_index" && OptionSelectKey(index) != "option_index"
  {
    assert OptionNameKey(index)[1] == 'n' && OptionSelectKey(index)[1] == 's';
    assert "option_index"[1] == 'p';
  }

  /** Different option indices write different `on<i>` and `os<i>` keys. */
  lemma OptionKeysDistinct(i: int, j: int)
    requires i != j
    ensures OptionNameKey(i) != OptionNameKey(j) && OptionSelectKey(i) != OptionSelectKey(j)
  {
    if OptionNameKey(i) == OptionNameKey(j) {
      PrefixCancel("on", IntToString(i), IntToString(j));
      IntToStringInjective(i, j);
    }
    if OptionSelectKey(i) == OptionSelectKey(j) {
      PrefixCancel("os", IntToString(i), IntToString(j));
      IntToStringInjective(i, j);
    }
  }

  /** `_part` for a part PHP deems true (not null, `""` or `"0"`), nothing for any other. */
  function Suffix(part: Option<string>): (suffix: string)
    ensures suffix == "" <==> !Truthy(part)
  {
    if Truthy(part) then "_" + part.value else ""
  }

  /**
   * The `bn` value `setStoreInfo` builds: the company, then `_` and each of
   * service, product and country in that order, skipping the falsy ones.
   */
  function StoreInfo(company: string, service: Option<string>, product: Option<string>, country: Option<string>): (info: string)
    ensures |info| >= |company| && info[..|company|] == company
    ensures info == company <==> !Truthy(service) && !Truthy(product) && !Truthy(country)
  {
    company + Suffix(service) + Suffix(product) + Suffix(country)
  }

  /** The first item's keys, as `setCartName`, `setQuantity` and `setCartAmount` spell them. */
  lemma FirstItemKeys()
    ensures ItemNameKey(1) == "item_name_1" && AmountKey(1) == "amount_1" && QuantityKey(1) == "quantity_1"
    ensures ItemToken(1) == "i1" && ItemToken(2) == "i2" && ItemToken(3) == "i3"
  {
    assert NatToString(1) == "1" && NatToString(2) == "2" && NatToString(3) == "3";
  }

  class PaypalLinkBuilder {
    var baseUrl: string
    var parameters: map<string, Value>
    var isShoppingCart: bool
    var itemIndex: nat
    var customOptions: nat

    /**
     * The builder's invariant: items are numbered from 1, `upload` is set
     * exactly once an item was added, `option_index` is set exactly once a
     * custom option was, and then holds their count, and `cmd` is one of the
     * two commands, `_cart` whenever the cart flag is set.
     */
    ghost predicate Valid()
      reads this
    {
      && itemIndex >= 1
      && ("upload" in parameters <==> itemIndex > 1)
      && ("upload" in parameters ==> parameters["upload"] == Int(1))
      && ("option_index" in parameters <==> customOptions > 0)
      && ("option_index" in parameters ==> parameters["option_index"] == Int(customOptions))
      && "cmd" in parameters
      && parameters["cmd"] in {Str("_cart"), Str("_xclick")}
      && (isShoppingCart ==> parameters["cmd"] == Str("_cart"))
    }

    constructor (baseUrl: string := DEFAULT_BASE_URL, isShoppingCart: bool := false)
      ensures Valid()
      ensures this.baseUrl == baseUrl && this.isShoppingCart == isShoppingCart
      ensures itemIndex == 1 && customOptions == 0
      ensures parameters == map[
        "cmd" := Str(if isShoppingCart then "_cart" else "_xclick"),
        "currency_code" := Str("USD"),
        "no_shipping" := Bool(true),
        "no_note" := Bool(true),
        "charset" := Str("utf-8")]
    {
      this.baseUrl := baseUrl;
      this.isShoppingCart := isShoppingCart;
      itemIndex := 1;
      customOptions := 0;
      var cmd := if isShoppingCart then "_cart" else "_xclick";
      parameters := map["cmd" := Str(cmd)];
      new;
      parameters := parameters["currency_code" := Str("USD")];
      parameters := parameters["no_shipping" := Bool(true)];
      parameters := parameters["no_note" := Bool(true)];
      parameters := parameters["charset" := Str("utf-8")];
    }

    /** The IPN address; with an instant callback also the callback address and its timeout. */
    method SetCallBack(url: string, instantCallback: bool := false, callBackTimeOut: int := 3)
      requires Valid()
      modifies this`parameters
      ensures Valid()
      ensures !instantCallback ==> parameters == old(parameters)["notify_url" := Str(url)]
      ensures instantCallback ==>
        parameters == old(parameters)["notify_url" := Str(url)]["callback_url" := Str(url)]["callback_timeout" := Int(callBackTimeOut)]
    {
      parameters := parameters["notify_url" := Str(url)];
      if instantCallback {
        parameters := parameters["callback_url" := Str(url)];
        parameters := parameters["callback_timeout" := Int(callBackTimeOut)];
      }
    }

    method SetSuccessUrl(url: string)
      requires Valid()
      modifies this`parameters
      ensures Valid() && parameters == old(parameters)["return" := Str(url)]
    {
      parameters := parameters["return" := Str(url)];
    }

    method SetFailUrl(url: string)
      requires Valid()
      modifies this`parameters
      ensures Valid() && parameters == old(parameters)["cancel_return" := Str(url)]
    {
      parameters := parameters["cancel_return" := Str(url)];
    }

    method SetCurrencyCode(currencyCode: string)
      requires Valid()
      modifies this`parameters
      ensures Valid() && parameters == old(parameters)["currency_code" := Str(currencyCode)]
    {
      parameters := parameters["currency_code" := Str(currencyCode)];
    }

    method SetCustom(custom: string)
      requires Valid()
      modifies this`parameters
      ensures Valid() && parameters == old(parameters)["custom" := Str(custom)]
    {
      parameters := parameters["custom" := Str(custom)];
    }

    method SetStoreInfo(company: string, service: Option<string> := None, product: Option<string> := None, country: Option<string> := None)
      requires Valid()
      modifies this`parameters
      ensures Valid() && parameters == old(parameters)["bn" := Str(StoreInfo(company, service, product, country))]
    {
      var info := company;
      if Truthy(service) {
        info := info + ("_" + service.value);
      }
      assert info == company + Suffix(service);
      if Truthy(product) {
        info := info + ("_" + product.value);
      }
      assert info == company + Suffix(service) + Suffix(product);
      if Truthy(country) {
        info := info + ("_" + country.value);
      }
      assert info == company + Suffix(service) + Suffix(product) + Suffix(country);
      parameters := parameters["bn" := Str(info)];
    }

    method SetLanguage(language: string)
      requires Valid()
      modifies this`parameters
      ensures Valid() && parameters == old(parameters)["lc" := Str(language)]
    {
      parameters := parameters["lc" := Str(language)];
    }

    method SetCharset(charset: string)
      requires Valid()
      modifies this`parameters
      ensures Valid() && parameters == old(parameters)["charset" := Str(charset)]
    {
      parameters := parameters["charset" := Str(charset)];
    }

    /** Stores the flag as given under `no_note`, although the argument says "enable". */
    method SetNote(enableNote: bool)
      requires Valid()
      modifies this`parameters
      ensures Valid() && parameters == old(parameters)["no_note" := Bool(enableNote)]
    {
      parameters := parameters["no_note" := Bool(enableNote)];
    }

    /** Stores the flag as given under `no_shipping`, although the argument says "enable". */
    method SetShipping(enableShipping: bool)
      requires Valid()
      modifies this`parameters
      ensures Valid() && parameters == old(parameters)["no_shipping" := Bool(enableShipping)]
    {
      parameters := parameters["no_shipping" := Bool(enableShipping)];
    }

    method SetAccount(account: string)
      requires Valid()
      modifies this`parameters
      ensures Valid()
      ensures parameters == old(parameters)["business" := Str(account)]["receiver_email" := Str(account)]
    {
      parameters := parameters["business" := Str(account)];
      parameters := parameters["receiver_email" := Str(account)];
    }

    /** The cart name, and the first item's name with `ss` appended. */
    method SetCartName(cartName: string)
      requires Valid()
      modifies this`parameters
      ensures Valid()
      ensures parameters == old(parameters)["item_name" := Str(cartName)][ItemNameKey(1) := Str(cartName + "ss")]
    {
      FirstItemKeys();
      parameters := parameters["item_name" := Str(cartName)];
      parameters := parameters["item_name_1" := Str(cartName + "ss")];
    }

    method SetQuantity(quantity: int)
      requires Valid()
      modifies this`parameters
      ensures Valid()
      ensures parameters == old(parameters)["quantity" := Int(quantity)][QuantityKey(1) := Int(quantity)]
    {
      FirstItemKeys();
      parameters := parameters["quantity" := Int(quantity)];
      parameters := parameters["quantity_1" := Int(quantity)];
    }

    method SetCartAmount(amount: real)
      requires Valid()
      modifies this`parameters
      ensures Valid()
      ensures parameters == old(parameters)["amount" := Float(amount)][AmountKey(1) := Float(amount)]
    {
      FirstItemKeys();
      parameters := parameters["amount" := Float(amount)];
      parameters := parameters["amount_1" := Float(amount)];
    }

    /**
     * Writes item `k` (the current index) and the `upload` flag, returns
     * `i<k>` and moves to the next index; every other item's fields and the
     * custom-option count are left as they were.
     */
    method AddItem(itemName: string, quantity: int, price: real) returns (token: string)
      requires Valid()
      modifies this`parameters, this`itemIndex
      ensures Valid()
      ensures itemIndex == old(itemIndex) + 1
      ensures token == ItemToken(old(itemIndex))
      ensures parameters == old(parameters)
        ["upload" := Int(1)]
        [ItemNameKey(old(itemIndex)) := Str(itemName)]
        [AmountKey(old(itemIndex)) := Float(price)]
        [QuantityKey(old(itemIndex)) := Int(quantity)]
      ensures forall j: nat {:trigger ItemNameKey(j)} :: j != old(itemIndex) ==>
        && (ItemNameKey(j) in parameters <==> ItemNameKey(j) in old(parameters))
        && (ItemNameKey(j) in parameters ==> parameters[ItemNameKey(j)] == old(parameters)[ItemNameKey(j)])
        && (AmountKey(j) in parameters <==> AmountKey(j) in old(parameters))
        && (AmountKey(j) in parameters ==> parameters[AmountKey(j)] == old(parameters)[AmountKey(j)])
        && (QuantityKey(j) in parameters <==> QuantityKey(j) in old(parameters))
        && (QuantityKey(j) in parameters ==> parameters[QuantityKey(j)] == old(parameters)[QuantityKey(j)])
    {
      var k := itemIndex;
      parameters := parameters["upload" := Int(1)];
      parameters := parameters[ItemNameKey(k) := Str(itemName)];
      parameters := parameters[AmountKey(k) := Float(price)];
      parameters := parameters[QuantityKey(k) := Int(quantity)];
      token := ItemToken(k);
      itemIndex := k + 1;
      forall j: nat | j != k
        ensures ItemNameKey(j) !in {"upload", ItemNameKey(k), AmountKey(k), QuantityKey(k)}
        ensures AmountKey(j) !in {"upload", ItemNameKey(k), AmountKey(k), QuantityKey(k)}
        ensures QuantityKey(j) !in {"upload", ItemNameKey(k), AmountKey(k), QuantityKey(k)}
      {
        ItemKeysApart(j, k);
      }
      assert ItemNameKey(k)[0] == 'i' && AmountKey(k)[0] == 'a' && QuantityKey(k)[0] == 'q';
    }

    /**
     * Writes `on<index>` and `os<index>` and counts the call; `option_index`
     * becomes the number of calls so far, not `index`.
     */
    method SetCustomParameter(index: int, parameterName: string, value: Value)
      requires Valid()
      modifies this`parameters, this`customOptions
      ensures Valid()
      ensures customOptions == old(customOptions) + 1
      ensures parameters == old(parameters)
        [OptionNameKey(index) := Str(parameterName)]
        [OptionSelectKey(index) := value]
        ["option_index" := Int(customOptions)]
    {
      customOptions := customOptions + 1;
      OptionKeysApart(index);
      assert OptionNameKey(index)[0] == 'o' && OptionSelectKey(index)[0] == 'o';
      parameters := parameters[OptionNameKey(index) := Str(parameterName)];
      parameters := parameters[OptionSelectKey(index) := value];
      parameters := parameters["option_index" := Int(customOptions)];
    }

    method SetImage(url: string)
      requires Valid()
      modifies this`parameters
      ensures Valid() && parameters == old(parameters)["image_url" := Str(url)]
    {
      parameters := parameters["image_url" := Str(url)];
    }

    /** Records the flag, but sets `cmd` to `_cart` whatever the flag. */
    method SetIsShoppingCart(isShoppingCart: bool)
      requires Valid()
      modifies this`parameters, this`isShoppingCart
      ensures Valid()
      ensures this.isShoppingCart == isShoppingCart
      ensures parameters == old(parameters)["cmd" := Str("_cart")]
    {
      this.isShoppingCart := isShoppingCart;
      parameters := parameters["cmd" := Str("_cart")];
    }

    /** The cart flag; when it is set, `cmd` is `_cart`. */
    function IsShoppingCart(): (cart: bool)
      requires Valid()
      reads this
      ensures cart ==> parameters["cmd"] == Str("_cart")
    {
      isShoppingCart
    }

    /**
     * `__toString`: the base URL followed by the query string of the
     * parameters; `encode` stands for `http_build_query`.
     */
    function ToString(encode: map<string, Value> -> string): (url: string)
      reads this
      ensures |url| >= |baseUrl| && url[..|baseUrl|] == baseUrl
      ensures url[|baseUrl|..] == encode(parameters)
    {
      baseUrl + encode(parameters)
    }
  }

  /** Successive `addItem` calls return `i1`, `i2`, `i3` and fill the fields of items 1, 2 and 3. */
  method ThreeItems(names: seq<string>, quantities: seq<int>, prices: seq<real>)
    returns (tokens: seq<string>, parameters: map<string, Value>)
    requires |names| == |quantities| == |prices| == 3
    ensures tokens == ["i1", "i2", "i3"]
    ensures forall k :: 1 <= k <= 3 ==>
      && ItemNameKey(k) in parameters && AmountKey(k) in parameters && QuantityKey(k) in parameters
      && parameters[ItemNameKey(k)] == Str(names[k - 1])
      && parameters[AmountKey(k)] == Float(prices[k - 1])
      && parameters[QuantityKey(k)] == Int(quantities[k - 1])
    ensures "upload" in parameters && parameters["upload"] == Int(1)
  {
    var b := new PaypalLinkBuilder(DEFAULT_BASE_URL, true);
    var t1 := b.AddItem(names[0], quantities[0], prices[0]);
    var t2 := b.AddItem(names[1], quantities[1], prices[1]);
    var t3 := b.AddItem(names[2], quantities[2], prices[2]);
    tokens := [t1, t2, t3];
    parameters := b.parameters;
    FirstItemKeys();
    ItemKeysApart(1, 2);
    ItemKeysApart(1, 3);
    ItemKeysApart(2, 3);
    ItemKeysApart(2, 1);
    ItemKeysApart(3, 1);
    ItemKeysApart(3, 2);
  }

  /** After `setIsShoppingCart(b)` the flag reads back as `b`, while `cmd` is `_cart` either way. */
  method CartFlagAndCommand(cart: bool) returns (flag: bool, cmd: Value)
    ensures flag == cart && cmd == Str("_cart")
  {
    var b := new PaypalLinkBuilder();
    b.SetIsShoppingCart(cart);
    flag := b.IsShoppingCart();
    cmd := b.parameters["cmd"];
  }

  /** Repeating a single-key setter with the same argument leaves the parameters as the first call left them. */
  method SettersIdempotent(b: PaypalLinkBuilder, url: string, enable: bool, account: string)
    returns (once: map<string, Value>, twice: map<string, Value>)
    requires b.Valid()
    modifies b`parameters
    ensures once == twice
  {
    b.SetSuccessUrl(url);
    b.SetNote(enable);
    b.SetAccount(account);
    once := b.parameters;
    b.SetSuccessUrl(url);
    b.SetNote(enable);
    b.SetAccount(account);
    twice := b.parameters;
  }
}
