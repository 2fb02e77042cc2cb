/** Constants the server views and the browser script share: the HTTP statuses they answer with and the placeholder texts for a missing title or artist. */
module Common {
  const STATUS_OK := 200
  const STATUS_BAD_REQUEST := 400
  const STATUS_NOT_FOUND := 404
  const STATUS_SERVER_ERROR := 500

  const UNKNOWN_TITLE := "Unknown Title"
  const UNKNOWN_ARTIST := "Unknown Artist"
}
