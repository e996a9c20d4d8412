/** Request and response shapes of the backend's three auth endpoints, and
    the outcome of wrapping a call in the app's "safe API call".  The wrapper
    itself is not part of this model: its three-way result is inferred from
    how the view-models branch on it. */
module Remote {

  /** Body of every auth endpoint's reply: the application's bearer token. */
  datatype AuthResponse = AuthResponse(token: string)

  /** Success with the parsed body, a non-2xx reply with its status code, or
      a transport/parse failure. */
  datatype ApiResponse =
    | Success(data: AuthResponse)
    | Error(code: int, message: string)
    | Exception(message: string)

  datatype SignInRequest = SignInRequest(email: string, password: string)

  datatype SignUpRequest = SignUpRequest(name: string, email: string, password: string)

  /** Body of POST /auth/oauth: the provider-issued token and the provider's tag. */
  datatype OAuthRequest = OAuthRequest(token: string, provider: string)

  /** A call that either produced a response or let an exception escape. */
  datatype Call = Returned(response: ApiResponse) | Threw

  /** `(response as? ApiResponse.Error)?.code ?: 0`: the status code of an
      Error response, and 0 for any other response. */
  function CodeOrZero(response: ApiResponse): int
  {
    if response.Error? then response.code else 0
  }
}
