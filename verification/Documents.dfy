/** What the encrypted vault stores: one document per namespace. JSON text is modelled by these
    datatypes, so encoding and decoding are injective by construction. */
module Documents {

  datatype Option<+T> = None | Some(value: T)

  /** Declared in priority order. */
  datatype Mode = OAuth | Pat | BrowserSession

  datatype Login = Login(username: string, password: string)

  /** A Canvas credential as it is written to disk: OAuth expiry is wall-clock time. */
  datatype SavedSlot =
    | SavedOAuth(baseUrl: string, token: string, refresh: string, expiresAt: real)
    | SavedPat(baseUrl: string, token: string)
    | SavedBrowser(baseUrl: string, cookies: map<string, string>)

  datatype Entry = Entry(ntlm: Option<Login>, slots: map<Mode, SavedSlot>, preferred: Mode, blocked: bool)

  datatype ProviderSession = ProviderSession(provider: string, baseUrl: string, cookies: map<string, string>)

  /** An AI endpoint: only the hosted and local ones of the built-in catalogue are supported. */
  datatype Base = Unset | Hosted(provider: nat) | Local(provider: nat) | Custom(url: string)

  datatype Config = Config(base: Base, model: string, revision: nat)

  datatype AiRecord = AiRecord(key: Option<string>, base: Base, verified: Option<Config>)

  /** `{}` is Empty: a namespace never written, or one cleared. */
  datatype Document =
    | Empty
    | Credentials(entries: map<string, Entry>)
    | Sessions(sessions: map<string, ProviderSession>)
    | Ai(record: AiRecord)
}
