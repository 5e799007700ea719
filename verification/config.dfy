/** The constants of js/config.js the modelled code reads. */
module Config {
  /** Session lifetime and the lead time of the logout warning, in milliseconds. */
  const SESSION_TIMEOUT: int := 30 * 60 * 1000
  const AUTO_LOGOUT_WARNING: int := 5 * 60 * 1000
  const MAX_LOGIN_ATTEMPTS: nat := 5
  const PASSWORD_MIN_LENGTH: nat := 6

  /** Storage keys. */
  const SESSION_TOKEN_KEY: string := "warehouse_session_token"
  const USER_INFO_KEY: string := "warehouse_user_info"
  const REMEMBER_ME_KEY: string := "warehouse_remember_me"
  const THEME_KEY: string := "warehouse_theme"
  const LANGUAGE_KEY: string := "warehouse_language"

  /** The key js/login.js keeps the remembered username under. */
  const USERNAME_KEY: string := "warehouse_username"

  /** The delay of the logout-warning timer: the warning precedes expiry. */
  const WARNING_DELAY: int := SESSION_TIMEOUT - AUTO_LOGOUT_WARNING
}
