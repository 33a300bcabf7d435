/**
 * The decoded payment QR record (`IVietQr`). Decoding itself belongs to an
 * external library; this module only gives the record's shape, field names
 * as the interface spells them (`acquier` included).
 */
module VietQr {
  import opened Wrappers

  datatype Provider = Provider(fieldId: string, guid: string, name: string, service: string)

  /** The destination bank's BIN and the destination account or card number. */
  datatype Consumer = Consumer(bankBin: string, bankNumber: string)

  datatype Acquier = Acquier(name: string, id: string)

  datatype AdditionalData = AdditionalData(
    billNumber: string,
    mobileNumber: string,
    store: string,
    loyaltyNumber: string,
    reference: string,
    customerLabel: string,
    terminal: string,
    dataRequest: string,
    purpose: Option<string>)

  datatype Record = Record(
    isValid: bool,
    version: string,
    initMethod: string,
    provider: Provider,
    consumer: Consumer,
    category: string,
    currency: string,
    amount: string,
    tipAndFeeType: string,
    tipAndFeeAmount: string,
    tipAndFeePercent: string,
    nation: string,
    acquier: Acquier,
    city: string,
    zipCode: string,
    additionalData: AdditionalData,
    crc: string)
}
