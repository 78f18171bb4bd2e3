/** The fixed category table of the classifier: for each category its
    keywords, its priority, its display colour and its canned response. The
    table is built once and never changed. */
module Registry {

  datatype Category = Authentication | HR_Services | IT_Support | System_Issues | General_Inquiry

  datatype Priority = High | Medium | Low

  /** One row of the table. The colour is an opaque display tag; `response`
      is the fixed text the row's response template returns. */
  datatype Config = Config(keywords: seq<string>, priority: Priority, color: string, response: string)

  /** The categories in declaration order, which is the order the classifier
      scans them in. */
  const CATEGORIES: seq<Category> :=
    [Authentication, HR_Services, IT_Support, System_Issues, General_Inquiry]

  /** The category chosen when no keyword matches. */
  const FALLBACK: Category := General_Inquiry

  /** Position of a category in declaration order; every category appears
      exactly once. */
  function Index(c: Category): (k: nat)
    ensures k < |CATEGORIES| && CATEGORIES[k] == c
    ensures forall j :: 0 <= j < |CATEGORIES| && CATEGORIES[j] == c ==> j == k
  {
    match c
    case Authentication => 0
    case HR_Services => 1
    case IT_Support => 2
    case System_Issues => 3
    case General_Inquiry => 4
  }

  /** The key under which the category is stored, also the value the
      category filter compares with. */
  function Name(c: Category): string
  {
    match c
    case Authentication => "Authentication"
    case HR_Services => "HR_Services"
    case IT_Support => "IT_Support"
    case System_Issues => "System_Issues"
    case General_Inquiry => "General_Inquiry"
  }

  /** The table as the classifier holds it: one row per category. */
  datatype Table = Table(
    authentication: Config,
    hrServices: Config,
    itSupport: Config,
    systemIssues: Config,
    generalInquiry: Config)
  {
    function Lookup(c: Category): Config
    {
      match c
      case Authentication => authentication
      case HR_Services => hrServices
      case IT_Support => itSupport
      case System_Issues => systemIssues
      case General_Inquiry => generalInquiry
    }
  }

  /** Applies a row's response template to the original text. */
  function Template(config: Config, text: string): string
  {
    config.response
  }

  const AUTHENTICATION_RESPONSE: string :=
    "Hello! I can help you with your password issue.\n\nHere's how to reset your password:\n1. Go to the login page\n2. Click \"Forgot Password\"\n3. Enter your email address\n4. Check your email for reset instructions\n5. Follow the link to create a new password\n\nIf you continue to have issues, I'll escalate this to our IT team."
  const HR_RESPONSE: string :=
    "Hi there! I can help you with your HR inquiry.\n\nTo check your leave balance:\n1. Log into the employee portal\n2. Navigate to \"HR Services\" \U{2192} \"Leave Management\"\n3. Your current balance will be displayed\n\nIf you need assistance accessing the portal or have other HR questions, I'll connect you with our HR team."
  const IT_RESPONSE: string :=
    "Hello! I'm here to help with your IT support request.\n\nFor common IT issues, try these steps:\n1. Restart your computer/application\n2. Check your network connection\n3. Clear your browser cache if it's a web issue\n\nIf the problem persists, I'll create a ticket for our IT support team to assist you further."
  const SYSTEM_RESPONSE: string :=
    "Hi! I understand you're experiencing a system issue.\n\nI've logged this as a high-priority ticket. Our technical team will:\n1. Investigate the issue immediately\n2. Provide updates within 2 hours\n3. Work on a resolution\n\nThank you for reporting this - it helps us maintain system quality."
  const GENERAL_RESPONSE: string :=
    "Hello! Thank you for contacting support.\n\nI've received your inquiry and it will be reviewed by our support team. You can expect a response within 24 hours.\n\nIf this is urgent, please call our support hotline at 1-800-SUPPORT."

  /** The table the classifier is constructed with. */
  const TABLE: Table := Table(
    Config(["password", "login", "access", "reset", "forgot", "incorrect", "locked", "signin"],
      High, "red", AUTHENTICATION_RESPONSE),
    Config(["leave", "balance", "vacation", "sick", "pay", "benefits", "policy", "time off"],
      Medium, "blue", HR_RESPONSE),
    Config(["computer", "software", "network", "printer", "installation", "hardware", "slow"],
      Medium, "green", IT_RESPONSE),
    Config(["error", "bug", "crash", "system", "application", "feature", "not working"],
      High, "orange", SYSTEM_RESPONSE),
    Config([], Low, "gray", GENERAL_RESPONSE))

  /** In the table, exactly one category, the fallback, has no keywords. */
  lemma FallbackIsOnlyKeywordless(c: Category)
    ensures TABLE.Lookup(c).keywords == [] <==> c == FALLBACK
  {
  }

  /** Category names are pairwise distinct and none is the wildcard "All". */
  lemma NamesDistinct(c: Category, d: Category)
    ensures Name(c) == Name(d) <==> c == d
    ensures Name(c) != "All"
  {
  }

  /** Every template of the table ignores the text it is given: two texts get
      the same response. */
  lemma TemplateIgnoresText(config: Config, a: string, b: string)
    ensures Template(config, a) == Template(config, b)
  {
  }
}
