/** What a route middleware decides, and the two paths the guards send users to. */
module Routes {

  /** `Proceed`: the middleware returns nothing; `Redirect(p)`: it returns `navigateTo(p)`. */
  datatype Decision = Proceed | Redirect(path: string)

  /** The login page. */
  const LoginPath: string := "/"

  /** The issue list, the landing page of a signed-in user. */
  const IssuePath: string := "/issue"
}
