/**
 * The constants the song module imports from the API configuration
 * (`api/config`). That file is not part of this model, so the success code
 * is declared without a value: every property of the model holds whatever
 * number the service uses.
 */
module ApiConfig {

  /** The `retcode` the remote lyric service sends on success (`ERR_OK`). */
  const ERR_OK: int
}
