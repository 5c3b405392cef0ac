/** Static metadata of the three simulated providers: the plain data that
    ECommerceAPI/Services/StripeSimulatorService.cs, PayPalSimulatorService.cs and
    MercadoPagoSimulatorService.cs supply, and the descriptor shape of
    ECommerceAPI/Models/GatewayInfo.cs. */
module Gateways {
  import opened PaymentEnums

  datatype GatewayInfo = GatewayInfo(
    gateway: PaymentGateway,
    name: string,
    description: string,
    supportedCurrencies: seq<string>,
    supportedCardTypes: seq<CardType>,
    isActive: bool,
    isSimulated: bool)

  const SimulatorNotice: string := "Este es un simulador para propósitos de demostración."

  function GatewayName(g: PaymentGateway): string {
    match g
    case Stripe => "Stripe"
    case PayPal => "PayPal"
    case MercadoPago => "MercadoPago"
  }

  function GatewayDescription(g: PaymentGateway): string {
    match g
    case Stripe =>
      "Stripe es una plataforma de pagos en línea que permite a empresas aceptar pagos por Internet. "
      + SimulatorNotice
    case PayPal =>
      "PayPal es un sistema de pagos en línea que permite transferencias de dinero entre usuarios. "
      + SimulatorNotice
    case MercadoPago =>
      "MercadoPago es la plataforma de pagos líder en América Latina, "
      + "ofreciendo soluciones de pago para comercio electrónico. "
      + SimulatorNotice
  }

  function SupportedCurrencies(g: PaymentGateway): seq<string> {
    match g
    case Stripe => ["USD", "EUR", "GBP", "MXN", "CAD", "AUD", "JPY", "BRL"]
    case PayPal => ["USD", "EUR", "GBP", "MXN", "CAD", "AUD", "JPY", "BRL", "CHF", "CZK", "DKK", "HKD"]
    case MercadoPago => ["MXN", "ARS", "BRL", "CLP", "COP", "PEN", "UYU", "USD"]
  }

  /** A three-letter upper-case currency code. */
  predicate IsCurrencyCode(c: string) {
    |c| == 3 && forall i :: 0 <= i < 3 ==> 'A' <= c[i] <= 'Z'
  }

  /** Each provider lists distinct, well-formed currency codes, USD among them (the
      currency a refund of an unknown transaction reports). */
  lemma CurrencyListsWellFormed(g: PaymentGateway)
    ensures forall i :: 0 <= i < |SupportedCurrencies(g)| ==> IsCurrencyCode(SupportedCurrencies(g)[i])
    ensures forall i, j :: 0 <= i < j < |SupportedCurrencies(g)| ==> SupportedCurrencies(g)[i] != SupportedCurrencies(g)[j]
    ensures "USD" in SupportedCurrencies(g)
  {
  }

  /** Providers are told apart by name. */
  lemma GatewayNamesDistinct(g1: PaymentGateway, g2: PaymentGateway)
    ensures GatewayName(g1) == GatewayName(g2) <==> g1 == g2
  {
  }
}
