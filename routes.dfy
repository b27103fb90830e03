/** The two route guards (src/routes/AdminRoute.tsx,
    src/routes/ProtectedRoute.tsx): what each renders from the auth
    context's `loading` flag and `user`. */
module Routes {
  import opened Wrappers
  import opened Types

  datatype Vista =
    | Spinner                // AdminRoute's loading indicator
    | VerificandoSesion      // ProtectedRoute's "Verificando sesión..."
    | RedirigirLogin         // <Navigate to="/login" replace />
    | Children               // the guarded content

  function AdminRoute(loading: bool, user: Option<Usuario>): (v: Vista)
    ensures loading ==> v == Spinner
    ensures !loading && (user.None? || user.value.rol != "ADMIN") ==> v == RedirigirLogin
    ensures v == Children <==> !loading && user.Some? && user.value.rol == "ADMIN"
  {
    if loading then Spinner
    else if user.None? || user.value.rol != "ADMIN" then RedirigirLogin
    else Children
  }

  function ProtectedRoute(loading: bool, user: Option<Usuario>): (v: Vista)
    ensures loading ==> v == VerificandoSesion
    ensures !loading && user.None? ==> v == RedirigirLogin
    ensures v == Children <==> !loading && user.Some?
  {
    if loading then VerificandoSesion
    else if user.None? then RedirigirLogin
    else Children
  }

  /** Every state the admin guard lets through, the session guard lets
      through too; the converse fails for a non-admin user. */
  lemma AdminImpliesProtected(loading: bool, user: Option<Usuario>)
    ensures AdminRoute(loading, user) == Children ==> ProtectedRoute(loading, user) == Children
    ensures !loading && user.Some? && user.value.rol != "ADMIN" ==>
      ProtectedRoute(loading, user) == Children && AdminRoute(loading, user) == RedirigirLogin
  {
  }
}
