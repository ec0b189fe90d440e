/**
 * The data of an IPN (Instant Payment Notification) callback once PayPal
 * has confirmed it: the raw form fields, four defaulted accessors and the
 * custom options rebuilt from `option_name…`/`option_value…` field pairs.
 */
module IpnData {
  import opened PhpArrays

  const OPTION_NAME := "option_name"
  const OPTION_VALUE := "option_value"

  /**
   * The price: the default `Zero` when `mc_gross` is absent, otherwise PHP's
   * `(float)` cast of the field's text, which this model keeps uninterpreted.
   */
  datatype Price = Zero | FloatOf(text: string)

  /** An immutable, defaulted view over the callback fields. */
  datatype PaypalData = PaypalData(
    rawData: StringArray,
    price: Price,
    currency: string,
    custom: string,
    payerEmail: string,
    customParameters: map<string, string>)
  {
    /** The record is the one the constructor builds from its own raw fields. */
    predicate Built() {
      this == Build(rawData)
    }

    /**
     * The value of custom option `key`, or null when there is none: present
     * exactly when some `option_name…` field with value `key` has its twin,
     * and then the twin's value of the last such field.
     */
    function GetCustomParameter(key: string): (v: Option<string>)
      ensures Built() ==>
        (v.Some? <==> exists i :: 0 <= i < |rawData| && rawData[i].1 == key && OptionAt(rawData, i).Some?)
      ensures Built() ==> forall i :: LastOptionEntry(rawData, i, key) ==> v == OptionAt(rawData, i)
    {
      OptionsKeys(rawData, |rawData|, key);
      LastEntryDecides(rawData, key);
      if key in customParameters then Some(customParameters[key]) else None
    }

    /** `Zero` exactly when `mc_gross` is absent, otherwise that field's text. */
    function GetPrice(): (p: Price)
      ensures Built() ==> (p == Zero <==> forall i :: 0 <= i < |rawData| ==> rawData[i].0 != "mc_gross")
      ensures Built() ==> forall i :: 0 <= i < |rawData| && rawData[i].0 == "mc_gross" ==> p == FloatOf(rawData[i].1)
    {
      GetEach(rawData);
      price
    }

    /** `mc_currency` when present, otherwise `"null"`. */
    function GetCurrency(): (c: string)
      ensures Built() ==> forall i :: 0 <= i < |rawData| && rawData[i].0 == "mc_currency" ==> c == rawData[i].1
      ensures Built() && (forall i :: 0 <= i < |rawData| ==> rawData[i].0 != "mc_currency") ==> c == "null"
    {
      GetEach(rawData);
      currency
    }

    /** `custom` when present, otherwise `"null"`. */
    function GetCustom(): (c: string)
      ensures Built() ==> forall i :: 0 <= i < |rawData| && rawData[i].0 == "custom" ==> c == rawData[i].1
      ensures Built() && (forall i :: 0 <= i < |rawData| ==> rawData[i].0 != "custom") ==> c == "null"
    {
      GetEach(rawData);
      custom
    }

    /** `payer_email` when present, otherwise `"null"`. */
    function GetPayerEmail(): (e: string)
      ensures Built() ==> forall i :: 0 <= i < |rawData| && rawData[i].0 == "payer_email" ==> e == rawData[i].1
      ensures Built() && (forall i :: 0 <= i < |rawData| ==> rawData[i].0 != "payer_email") ==> e == "null"
    {
      GetEach(rawData);
      payerEmail
    }

    /** The fields as received: building from them again gives the same record. */
    function GetRawData(): (raw: StringArray)
      ensures Built() ==> Build(raw) == this
    {
      rawData
    }
  }

  /** `isset($data[$k]) ? (string) $data[$k] : 'null'` */
  function TextOr(data: seq<Pair>, k: string): string {
    match Get(data, k)
    case Some(v) => v
    case None => "null"
  }

  /** `substr($key, 0, 11) === 'option_name'` */
  predicate IsOptionName(key: string) {
    |key| >= |OPTION_NAME| && key[..|OPTION_NAME|] == OPTION_NAME
  }

  /** `str_replace('option_name', 'option_value', $key)`: the name of the value field paired with `key`. */
  function TwinKey(key: string): string {
    ReplaceAll(key, OPTION_NAME, OPTION_VALUE)
  }

  /**
   * What entry `i` contributes to the custom options: for an `option_name…`
   * key whose twin is present, the twin's value; otherwise nothing.
   */
  function OptionAt(data: seq<Pair>, i: nat): Option<string>
    requires i < |data|
  {
    if IsOptionName(data[i].0) then Get(data, TwinKey(data[i].0)) else None
  }

  /**
   * The custom options once the constructor's loop has visited the first `n`
   * entries: each contributing entry maps its own value (the option's name)
   * to its twin's value, overwriting what an earlier entry put there.
   */
  function OptionsUpTo(data: seq<Pair>, n: nat): map<string, string>
    requires n <= |data|
  {
    if n == 0 then map[]
    else
      var m := OptionsUpTo(data, n - 1);
      match OptionAt(data, n - 1)
      case Some(v) => m[data[n - 1].1 := v]
      case None => m
  }

  /** The record the constructor builds from any callback field array. */
  function Build(data: StringArray): (d: PaypalData)
    ensures d.rawData == data
    ensures d.customParameters.Keys <= set i | 0 <= i < |data| :: data[i].1
  {
    OptionNamesFromFields(data, |data|);
    PaypalData(
      data,
      match Get(data, "mc_gross") case Some(t) => FloatOf(t) case None => Zero,
      TextOr(data, "mc_currency"),
      TextOr(data, "custom"),
      TextOr(data, "payer_email"),
      OptionsUpTo(data, |data|))
  }

  /** The constructor: the four scalar fields, then one pass over the entries in order. */
  method Create(data: StringArray) returns (d: PaypalData)
    ensures d == Build(data)
  {
    var price := Zero;
    var gross := Get(data, "mc_gross");
    if gross.Some? {
      price := FloatOf(gross.value);
    }
    var currency := TextOr(data, "mc_currency");
    var custom := TextOr(data, "custom");
    var payerEmail := TextOr(data, "payer_email");

    var options: map<string, string> := map[];
    var i := 0;
    while i < |data|
      invariant 0 <= i <= |data|
      invariant options == OptionsUpTo(data, i)
    {
      var (key, value) := data[i];
      if IsOptionName(key) {
        var twin := Get(data, TwinKey(key));
        if twin.Some? {
          options := options[value := twin.value];
        }
      }
      i := i + 1;
    }
    d := PaypalData(data, price, currency, custom, payerEmail, options);
  }

  /** The twin of an `option_name…` key starts with `option_value`, so it is never itself an `option_name…` key. */
  lemma TwinOfOptionName(key: string)
    requires IsOptionName(key)
    ensures |TwinKey(key)| >= |OPTION_VALUE| && TwinKey(key)[..|OPTION_VALUE|] == OPTION_VALUE
    ensures !IsOptionName(TwinKey(key)) && TwinKey(key) != key
  {
    ReplaceAllLeading(key, OPTION_NAME, OPTION_VALUE);
    assert TwinKey(key)[7] == 'v';
  }

  /** An option's name is in the map exactly when some visited entry contributes under that name. */
  lemma {:induction false} OptionsKeys(data: seq<Pair>, n: nat, name: string)
    requires n <= |data|
    ensures name in OptionsUpTo(data, n) <==> exists i :: 0 <= i < n && data[i].1 == name && OptionAt(data, i).Some?
  {
    if n > 0 {
      OptionsKeys(data, n - 1, name);
    }
  }

  /**
   * The entry that contributes last under a name decides that option's value:
   * when two `option_name…` fields carry the same value, the later one wins.
   */
  lemma {:induction false} OptionsLastWins(data: seq<Pair>, n: nat, i: nat)
    requires i < n <= |data| && OptionAt(data, i).Some?
    requires forall j :: i < j < n && OptionAt(data, j).Some? ==> data[j].1 != data[i].1
    ensures data[i].1 in OptionsUpTo(data, n)
    ensures OptionsUpTo(data, n)[data[i].1] == OptionAt(data, i).value
  {
    if i < n - 1 {
      OptionsLastWins(data, n - 1, i);
    }
  }

  /** Every option value in the map is the twin value of an entry contributing under that name. */
  lemma {:induction false} OptionsComeFromEntries(data: seq<Pair>, n: nat, name: string)
    requires n <= |data| && name in OptionsUpTo(data, n)
    ensures exists i :: 0 <= i < n && data[i].1 == name && OptionAt(data, i) == Some(OptionsUpTo(data, n)[name])
  {
    if OptionAt(data, n - 1).Some? && data[n - 1].1 == name {
      assert OptionAt(data, n - 1) == Some(OptionsUpTo(data, n)[name]);
    } else {
      OptionsComeFromEntries(data, n - 1, name);
    }
  }

  /** Entry `i` is the last entry that contributes an option named `name`. */
  predicate LastOptionEntry(data: seq<Pair>, i: nat, name: string) {
    && i < |data|
    && data[i].1 == name
    && OptionAt(data, i).Some?
    && forall j :: i < j < |data| && OptionAt(data, j).Some? ==> data[j].1 != name
  }

  /** Every option's name is the value of one of the visited fields. */
  lemma {:induction false} OptionNamesFromFields(data: seq<Pair>, n: nat)
    requires n <= |data|
    ensures OptionsUpTo(data, n).Keys <= set i | 0 <= i < n :: data[i].1
  {
    if n > 0 {
      OptionNamesFromFields(data, n - 1);
      assert (set i | 0 <= i < n - 1 :: data[i].1) <= (set i | 0 <= i < n :: data[i].1);
      assert data[n - 1].1 in set i | 0 <= i < n :: data[i].1;
    }
  }

  /** The last entry contributing under `name`, if any, fixes that option's value. */
  lemma LastEntryDecides(data: seq<Pair>, name: string)
    ensures forall i :: LastOptionEntry(data, i, name) ==>
      name in OptionsUpTo(data, |data|) && OptionsUpTo(data, |data|)[name] == OptionAt(data, i).value
  {
    forall i | LastOptionEntry(data, i, name)
      ensures name in OptionsUpTo(data, |data|) && OptionsUpTo(data, |data|)[name] == OptionAt(data, i).value
    {
      OptionsLastWins(data, |data|, i);
    }
  }

  /** Only `option_name…` entries whose twin is present ever contribute. */
  lemma OptionAtSpec(data: StringArray, i: nat)
    requires i < |data|
    ensures OptionAt(data, i).Some? <==>
      IsOptionName(data[i].0) && exists j :: 0 <= j < |data| && data[j].0 == TwinKey(data[i].0)
    ensures OptionAt(data, i).Some? ==>
      exists j :: 0 <= j < |data| && data[j] == (TwinKey(data[i].0), OptionAt(data, i).value)
  {
    if OptionAt(data, i).Some? {
      GetFound(data, TwinKey(data[i].0));
    }
  }

  /** The pairing example: `option_name0=color` with `option_value0=red` gives option `color` = `red`. */
  lemma ColorOption()
    ensures Build([("option_name0", "color"), ("option_value0", "red")]).GetCustomParameter("color") == Some("red")
    ensures Build([("option_name0", "color")]).GetCustomParameter("color") == None
  {
    var full: StringArray := [("option_name0", "color"), ("option_value0", "red")];
    assert TwinKey("option_name0") == "option_value0" by {
      assert "option_name0"[..11] == OPTION_NAME;
      assert "option_name0"[11..] == "0";
    }
    assert OptionAt(full, 0) == Some("red");
    assert "option_value0"[7] != OPTION_NAME[7];
    assert !IsOptionName(full[1].0);
    assert OptionsUpTo(full, 1) == map["color" := "red"];
    assert OptionsUpTo(full, 2) == OptionsUpTo(full, 1);
    var lone: StringArray := [("option_name0", "color")];
    assert OptionAt(lone, 0) == None;
  }
}
