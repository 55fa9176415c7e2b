/** The error tags of the connector result types (packages/connect/ic/providers/types.ts). */
module ConnectorErrors {

  datatype CreateActorError = FetchRootKeyFailed | CreateActorFailed | NotInitialized | LocalActorsNotSupported

  datatype ConnectError = NotInitialized | NotInstalled | ConnectFailed | IsLocked

  datatype DisconnectError = DisconnectFailed | NotInitialized

  datatype InitError = NotInstalled | InitFailed | FetchRootKeyFailed

  datatype BalanceError = NotInitialized | QueryBalanceFailed

  datatype TransferError =
    | InsufficientBalance
    | TransferFailed
    | FaultyAddress
    | NotInitialized
    | TokenNotSupported
    | NotConnected
}
