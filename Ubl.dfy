/**
 * The qualified names and fixed code values of the UBL-to-PEPPOL BIS Billing 3.0
 * conversion: the two UBL 2.1 component namespaces, the element names the
 * converter looks up or creates, and the EN 16931 code-list identifiers it writes.
 */
module Ubl {
  import opened ElementTree

  const CAC := "urn:oasis:names:specification:ubl:schema:xsd:CommonAggregateComponents-2"
  const CBC := "urn:oasis:names:specification:ubl:schema:xsd:CommonBasicComponents-2"

  function Cac(local: string): QName { QName(CAC, local) }
  function Cbc(local: string): QName { QName(CBC, local) }

  // Aggregate components.
  const ACCOUNTING_SUPPLIER_PARTY := Cac("AccountingSupplierParty")
  const ACCOUNTING_CUSTOMER_PARTY := Cac("AccountingCustomerParty")
  const PARTY := Cac("Party")
  const PARTY_NAME := Cac("PartyName")
  const POSTAL_ADDRESS := Cac("PostalAddress")
  const PARTY_TAX_SCHEME := Cac("PartyTaxScheme")
  const PARTY_LEGAL_ENTITY := Cac("PartyLegalEntity")
  const COUNTRY := Cac("Country")
  const CONTACT := Cac("Contact")
  const PAYMENT_MEANS := Cac("PaymentMeans")
  const PAYEE_FINANCIAL_ACCOUNT := Cac("PayeeFinancialAccount")
  const FINANCIAL_INSTITUTION_BRANCH := Cac("FinancialInstitutionBranch")
  const FINANCIAL_INSTITUTION := Cac("FinancialInstitution")
  const TAX_TOTAL := Cac("TaxTotal")
  const TAX_SUBTOTAL := Cac("TaxSubtotal")
  const TAX_CATEGORY := Cac("TaxCategory")
  const TAX_SCHEME := Cac("TaxScheme")
  const INVOICE_LINE := Cac("InvoiceLine")
  const ITEM := Cac("Item")
  const CLASSIFIED_TAX_CATEGORY := Cac("ClassifiedTaxCategory")
  const PRICE := Cac("Price")

  // Basic components.
  const CUSTOMIZATION_ID := Cbc("CustomizationID")
  const PROFILE_ID := Cbc("ProfileID")
  const INVOICE_TYPE_CODE := Cbc("InvoiceTypeCode")
  const DOCUMENT_CURRENCY_CODE := Cbc("DocumentCurrencyCode")
  const ENDPOINT_ID := Cbc("EndpointID")
  const WEBSITE_URI := Cbc("WebsiteURI")
  const IDENTIFICATION_CODE := Cbc("IdentificationCode")
  const ELECTRONIC_MAIL := Cbc("ElectronicMail")
  const REGISTRATION_NAME := Cbc("RegistrationName")
  const COMPANY_ID := Cbc("CompanyID")
  const NAME := Cbc("Name")
  const ID := Cbc("ID")
  const PAYMENT_MEANS_CODE := Cbc("PaymentMeansCode")
  const PERCENT := Cbc("Percent")
  const INVOICED_QUANTITY := Cbc("InvoicedQuantity")
  const BASE_QUANTITY := Cbc("BaseQuantity")

  // Fixed texts: the EN 16931 / PEPPOL BIS Billing 3.0 specification and process identifiers.
  const CUSTOMIZATION := "urn:cen.eu:en16931:2017#compliant#urn:fdc:peppol.eu:2017:poacc:billing:3.0"
  const PROFILE := "urn:fdc:peppol.eu:2017:poacc:billing:01:1.0"

  // Code lists and fixed codes.
  const UNCL1001 := "UNCL1001"                 // invoice type codes
  const ISO4217 := "ISO4217"                   // currency codes
  const ISO3166_ALPHA2 := "ISO3166-1:Alpha2"   // country codes
  const UNCL4461 := "UNCL4461"                 // payment means codes
  const UNCL5305 := "UNCL5305"                 // duty or tax or fee category codes
  const UNECE_REC20 := "UNECERec20"            // units of measure
  const STANDARD_RATE := "S"                   // UNCL5305 code "standard rate"
  const UNIT_ONE := "C62"                      // UN/ECE Recommendation 20 code "one"
  const ENTERPRISE_NUMBER_SCHEME := "0208"     // Belgian enterprise number scheme
  const IBAN := "IBAN"
  const BIC := "BIC"
  const LANGUAGE := "NL"
  const ITEM_NAME := "Classified taxcategory"
}
