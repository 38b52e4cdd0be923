/** The services catalog (SERVICES_CATALOG, api/index.py:136-382), passed in as a lookup table. */
module Catalog {

  /** One catalog entry: duration in months and catalog price. */
  datatype Service = Service(
    name: string,
    description: string,
    unit: string,
    duration: int,
    price: real)

  /** Entry "1.2" of the catalog, used by the worked examples. */
  const RiskAssessment := Service(
    "AI Trustworthiness & Risk Assessment",
    "Incorporates AI risk management models to ensure ethical, bias-mitigated, and secure AI deployment",
    "Service", 2, 30000.0)
}
