/** The browser cookie store as the popup sees it: the records it reports and
    the calls the popup issues against it. The store itself is external; the
    popup's calls are recorded, never executed. */
module Store {

  datatype Option<T> = None | Some(value: T)

  /** A cookie as the store reports it from a read. */
  datatype Cookie = Cookie(
    name: string,
    value: string,
    domain: string,
    path: string,
    secure: bool,
    httpOnly: bool,
    session: bool)

  /** The SameSite values the store accepts. */
  datatype SameSite = NoRestriction | Lax | Strict | Unspecified

  /** The parameter object of a set call; `domain` and `expirationDate` are
      optional properties that the popup includes only in some cases. */
  datatype SetDetails = SetDetails(
    url: string,
    name: string,
    value: string,
    path: string,
    secure: bool,
    httpOnly: bool,
    sameSite: SameSite,
    domain: Option<string>,
    expirationDate: Option<int>)

  /** One call into the cookie store. */
  datatype StoreCall =
    | GetAll(domain: string)
    | Set(details: SetDetails)
    | Remove(url: string, name: string)
}
