/** The build-time environment values (`import.meta.env.VITE_*`) the stores read. */
module Config {

  /** A page size: the locations-per-page value is assumed to be a positive number. */
  type PosNat = n: nat | n > 0 witness 1

  datatype Env = Env(
    baseUrl: string,           // VITE_API_BASE_URL
    loginEndpoint: string,     // VITE_LOGIN_ENDPOINT
    registerEndpoint: string,  // VITE_REGISTER_ENDPOINT
    passwordForgot: string,    // VITE_PASSWORD_FORGOT
    accountEndpoint: string,   // VITE_ACCOUNT_ENDPOINT
    locationsEndpoint: string, // VITE_LOCATIONS_ENDPOINT
    filtersEndpoint: string,   // VITE_LOCATIONS_FILTERS_ENDPOINT
    locationsPerPage: PosNat   // VITE_LOCATIONS_PER_PAGE
  )
}
