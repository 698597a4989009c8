/** Request and form validators (lib/validation/schemas.ts). A validator returns the issues it
    finds, each attached to a field path; the input is accepted iff there is none. Email and URL
    syntax are library checks and are given as predicates. */
module Schemas {
  import opened Wrappers
  import opened Plans

  datatype IssueKind = TooShort(minimum: nat) | TooLong(maximum: nat) | NotEmail | NotUrl
                     | NotInEnum | NotPositive | Mismatch

  /** An issue: the field it is attached to, what failed, and the schema's own message if it has one. */
  datatype Issue = Issue(path: string, kind: IssueKind, message: Option<string>)

  function MinLength(path: string, s: string, n: nat, message: Option<string>): (issues: seq<Issue>)
    ensures issues == [] <==> |s| >= n
  {
    if |s| < n then [Issue(path, TooShort(n), message)] else []
  }

  function MaxLength(path: string, s: string, n: nat, message: Option<string>): (issues: seq<Issue>)
    ensures issues == [] <==> |s| <= n
  {
    if |s| > n then [Issue(path, TooLong(n), message)] else []
  }

  /** emailSchema (lines 13-16): both checks run, so '' reports two issues. */
  function EmailIssues(isEmail: string -> bool, email: string): (issues: seq<Issue>)
    ensures issues == [] <==> isEmail(email) && email != ""
    ensures email == "" && !isEmail(email) ==> |issues| == 2
  {
    (if isEmail(email) then [] else [Issue("email", NotEmail, Some("Invalid email address"))])
    + MinLength("email", email, 1, Some("Email is required"))
  }

  /** passwordSchema (lines 18-21). */
  function PasswordIssues(password: string): (issues: seq<Issue>)
    ensures issues == [] <==> 8 <= |password| <= 100
    ensures |issues| <= 1
  {
    MinLength("password", password, 8, Some("Password must be at least 8 characters"))
    + MaxLength("password", password, 100, Some("Password is too long"))
  }

  /** The `refine` of register and updatePassword, reported on `confirmPassword`. */
  function MatchIssues(password: string, confirmPassword: string): (issues: seq<Issue>)
    ensures issues == [] <==> password == confirmPassword
  {
    if password == confirmPassword then [] else [Issue("confirmPassword", Mismatch, Some("Passwords do not match"))]
  }

  /** loginSchema (lines 23-26): the password only has to be non-empty. */
  function LoginIssues(isEmail: string -> bool, email: string, password: string): (issues: seq<Issue>)
    ensures issues == [] <==> isEmail(email) && email != "" && password != ""
  {
    EmailIssues(isEmail, email) + MinLength("password", password, 1, Some("Password is required"))
  }

  /** registerSchema (lines 28-35). */
  function RegisterIssues(isEmail: string -> bool, email: string, password: string, confirmPassword: string): (issues: seq<Issue>)
    ensures issues == [] <==> isEmail(email) && email != "" && 8 <= |password| <= 100 && password == confirmPassword
  {
    EmailIssues(isEmail, email) + PasswordIssues(password) + MatchIssues(password, confirmPassword)
  }

  /** resetPasswordSchema (lines 37-39). */
  function ResetPasswordIssues(isEmail: string -> bool, email: string): (issues: seq<Issue>)
    ensures issues == [] <==> isEmail(email) && email != ""
  {
    EmailIssues(isEmail, email)
  }

  /** updatePasswordSchema (lines 41-47). */
  function UpdatePasswordIssues(password: string, confirmPassword: string): (issues: seq<Issue>)
    ensures issues == [] <==> 8 <= |password| <= 100 && password == confirmPassword
  {
    PasswordIssues(password) + MatchIssues(password, confirmPassword)
  }

  /** checkoutSchema (lines 53-55). */
  function CheckoutIssues(planId: string): (issues: seq<Issue>)
    ensures issues == [] <==> planId in {"starter", "pro", "business"}
  {
    if planId in {"starter", "pro", "business"} then [] else [Issue("planId", NotInEnum, None)]
  }

  /** creditPurchaseSchema (lines 57-60). */
  function CreditPurchaseIssues(packageId: string, credits: int): (issues: seq<Issue>)
    ensures issues == [] <==> packageId != "" && credits > 0
  {
    MinLength("packageId", packageId, 1, None) + (if credits > 0 then [] else [Issue("credits", NotPositive, None)])
  }

  /** updateProfileSchema (lines 66-69): both fields optional, the avatar also nullable. */
  function UpdateProfileIssues(isUrl: string -> bool, fullName: Option<string>, avatarUrl: Option<Option<string>>): (issues: seq<Issue>)
    ensures issues == [] <==>
      (fullName.Some? ==> 1 <= |fullName.value| <= 100)
      && (avatarUrl.Some? && avatarUrl.value.Some? ==> isUrl(avatarUrl.value.value))
  {
    (match fullName
     case None => []
     case Some(name) => MinLength("fullName", name, 1, None) + MaxLength("fullName", name, 100, None))
    + (if avatarUrl.Some? && avatarUrl.value.Some? && !isUrl(avatarUrl.value.value) then [Issue("avatarUrl", NotUrl, None)] else [])
  }

  /** A password mismatch is reported on `confirmPassword` and nowhere else. */
  lemma MismatchOnConfirm(isEmail: string -> bool, email: string, password: string, confirmPassword: string)
    ensures var issues := RegisterIssues(isEmail, email, password, confirmPassword);
      (password != confirmPassword <==> Issue("confirmPassword", Mismatch, Some("Passwords do not match")) in issues)
      && forall i :: i in issues && i.kind == Mismatch ==> i.path == "confirmPassword"
  {
    var issues := RegisterIssues(isEmail, email, password, confirmPassword);
    assert issues == EmailIssues(isEmail, email) + PasswordIssues(password) + MatchIssues(password, confirmPassword);
  }

  /** The checkout enum accepts exactly the ids of the configured plans. */
  lemma CheckoutAcceptsPlans(env: PriceEnv, planId: string)
    ensures CheckoutIssues(planId) == [] <==> GetPlanById(env, planId).Some?
  {
    PlanByIdResolves(env, planId);
  }
}
