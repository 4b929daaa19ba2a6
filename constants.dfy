/** Column and column-family names shared by the two stores. */
module Constants {
  const SESSION_ID_COLUMN: string := "session_id"
  const START_COLUMN: string := "start_ts"
  const END_COLUMN: string := "end_ts"
  const CUSTOMER_KEY_COLUMN: string := "customer_key"
  const STATUS_COLUMN: string := "status"
  const MAIN_FAMILY: string := "main"
}
