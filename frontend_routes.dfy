/** The client routes the guards navigate to (frontend/src/constants.ts). */
module AppRoutes {
  const DASHBOARD: string := "/dashboard"
  const LOGIN: string := "/login"
}
