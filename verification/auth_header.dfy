/** What both request gateways share: the header map of a request, the bearer
    `Authorization` header they set, and the payload the refresh endpoint answers with. */
module AuthHeader {
  import opened Js

  type Headers = map<string, string>

  const Authorization := "Authorization"

  /** The refresh endpoint's payload; a field it lacks is undefined. */
  datatype TokenData = TokenData(accessToken: Option<string>, refreshToken: Option<string>)

  function Bearer(token: string): string {
    "Bearer " + token
  }
}
