/** How a price relates to tax, and the one rate the documents know. */
module Taxation {
  datatype TaxIndication = Included | NotIncluded | NotRelavant

  // 1 + Tax.rate / 100 for the fixed rate of 15
  const GROSS_FACTOR := 1.15
}
