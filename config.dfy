/** The cart configuration: a currency label and a VAT rate in [0, 100].
    Both are set once at construction and only read afterwards. */
module Configs {
  import opened Outcomes

  datatype ConfigData = ConfigData(currency: string, vatRate: real)

  /** Only configurations that passed the VAT range check exist. */
  type Config = c: ConfigData | 0.0 <= c.vatRate <= 100.0
    witness ConfigData("", 0.0)

  /** The validating constructor; both bounds are inclusive. */
  function NewConfig(currency: string, vatRate: real): (r: Result<Config>)
    ensures r.Ok? <==> 0.0 <= vatRate <= 100.0
    ensures r.Err? ==> r.error == InvalidVat(vatRate)
    ensures r.Ok? ==> r.value.currency == currency && r.value.vatRate == vatRate
  {
    if vatRate < 0.0 || vatRate > 100.0 then Err(InvalidVat(vatRate))
    else Ok(ConfigData(currency, vatRate))
  }

  /** A price with VAT added. */
  function WithVat(c: Config, price: real): (r: real)
    ensures r == price + price * c.vatRate / 100.0
    ensures price >= 0.0 ==> price <= r <= 2.0 * price
    ensures price <= 0.0 ==> 2.0 * price <= r <= price
  {
    price * (1.0 + c.vatRate / 100.0)
  }
}
