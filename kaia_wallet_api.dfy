/** What a `GET /api/v1/k/result/{requestKey}` call to the Kaia Wallet API can
    give back to either poller: a decoded JSON body, or a failed request
    (network error, non-2xx status). */
module KaiaWalletApi {
  import opened Wrappers

  const StatusCompleted := "completed"
  const StatusCanceled := "canceled"
  const StatusPending := "pending"

  const TypeAuth := "auth"

  /** The type-specific `result` object: `klaytn_address` for an `auth`
      request, `signed_tx` and `tx_hash` for a transaction request. A field
      the server left out is `None`. */
  datatype ResultFields = ResultFields(
    klaytnAddress: Option<string>,
    signedTx: Option<string>,
    txHash: Option<string>)

  /** The JSON body: `status`, `type` and an optional `result` object. */
  datatype ResultData = ResultData(status: string, kind: string, result: Option<ResultFields>)

  datatype Reply = Received(data: ResultData) | RequestFailed
}
