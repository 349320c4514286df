/** Process-wide settings read once at start-up. */
module Config {

  /** The hotel's fixed room inventory: rooms 1 to 30. */
  const TotalRooms := 30

  /** Fallbacks for the ADMIN_USER and ADMIN_PASS environment variables. */
  const DefaultAdminUser := "admin"
  const DefaultAdminPass := "secret123"
}
