/**
 * The library code the connector calls but whose behaviour is not modelled:
 * JSON encoding and parsing of the dLocal records, URL parsing with query
 * decoding, HMAC-SHA256 and hex encoding. Each is an arbitrary function
 * that either succeeds or fails (None); everything proved about the
 * connector holds for every choice of them.
 */
module Platform {
  import opened Wrappers
  import opened Transformers
  import FormFields

  datatype Collaborators = Collaborators(
    /** `encode_to_string_of_json` for each request record. */
    encodePaymentsRequest: DlocalPaymentsRequest -> Option<string>,
    encodeCaptureRequest: DlocalPaymentsCaptureRequest -> Option<string>,
    encodeRefundRequest: RefundRequest -> Option<string>,
    /** `parse_struct` for each response record. */
    parsePaymentsResponse: string -> Option<DlocalPaymentsResponse>,
    parseRefundResponse: string -> Option<RefundResponse>,
    parseErrorResponse: string -> Option<DlocalErrorResponse>,
    /** `Url::parse` followed by `query_pairs`: the decoded pairs, in order. */
    parseUrlQuery: string -> Option<seq<FormFields.Pair>>,
    /** `HmacSha256::sign_message(key, message)`. */
    hmacSha256: (string, string) -> Option<seq<bv8>>,
    /** `hex::encode`. */
    hexEncode: seq<bv8> -> string)
}
