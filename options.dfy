/** A manager's configuration and the option setters that write it. */
module Options {
  import opened Wrappers
  import opened Sessions
  import opened Cookies

  const DefaultName := "sessionup"

  /** The ID generator a manager calls: nil (Go's zero value), the
      default random generator, or one supplied by the caller. */
  datatype IDGenerator = NilGenID | DefaultGenID | CustomGenID(tag: string)

  /** The rejection function `Auth` calls on failure: nil, the default
      401-with-JSON responder, or one supplied by the caller. */
  datatype Rejecter = NilReject | DefaultReject | CustomReject(tag: string)

  /** Every configurable field of a manager. */
  datatype Settings = Settings(
    cookie: CookiePolicy,
    expiresIn: Duration,
    withIP: bool,
    withAgent: bool,
    genID: IDGenerator,
    reject: Rejecter)

  /** The names of the configurable fields, one per setter. */
  datatype Field =
    | NameField | DomainField | PathField | SecureField | HttpOnlyField
    | SameSiteField | ExpiresInField | WithIPField | WithAgentField
    | GenIDField | RejectField

  /** The value of one field. */
  datatype Value =
    | Text(text: string)
    | Flag(flag: bool)
    | Mode(mode: SameSiteMode)
    | Span(span: Duration)
    | Gen(gen: IDGenerator)
    | Rej(rej: Rejecter)

  /** Reading one field of a configuration. */
  function Get(s: Settings, f: Field): Value {
    match f
    case NameField => Text(s.cookie.name)
    case DomainField => Text(s.cookie.domain)
    case PathField => Text(s.cookie.path)
    case SecureField => Flag(s.cookie.secure)
    case HttpOnlyField => Flag(s.cookie.httpOnly)
    case SameSiteField => Mode(s.cookie.sameSite)
    case ExpiresInField => Span(s.expiresIn)
    case WithIPField => Flag(s.withIP)
    case WithAgentField => Flag(s.withAgent)
    case GenIDField => Gen(s.genID)
    case RejectField => Rej(s.reject)
  }

  /** The option setters: `CookieName(n)`, `Domain(d)`, ... each writes
      one field when applied to a manager. */
  datatype Setter =
    | CookieName(name: string)
    | Domain(domain: string)
    | Path(path: string)
    | Secure(secure: bool)
    | HttpOnly(httpOnly: bool)
    | SameSite(sameSite: SameSiteMode)
    | ExpiresIn(expiresIn: Duration)
    | WithIP(withIP: bool)
    | WithAgent(withAgent: bool)
    | GenID(genID: IDGenerator)
    | Reject(reject: Rejecter)

  /** The field a setter writes. */
  function Target(o: Setter): Field {
    match o
    case CookieName(_) => NameField
    case Domain(_) => DomainField
    case Path(_) => PathField
    case Secure(_) => SecureField
    case HttpOnly(_) => HttpOnlyField
    case SameSite(_) => SameSiteField
    case ExpiresIn(_) => ExpiresInField
    case WithIP(_) => WithIPField
    case WithAgent(_) => WithAgentField
    case GenID(_) => GenIDField
    case Reject(_) => RejectField
  }

  /** The value a setter writes. */
  function Payload(o: Setter): Value {
    match o
    case CookieName(n) => Text(n)
    case Domain(d) => Text(d)
    case Path(p) => Text(p)
    case Secure(b) => Flag(b)
    case HttpOnly(b) => Flag(b)
    case SameSite(m) => Mode(m)
    case ExpiresIn(e) => Span(e)
    case WithIP(b) => Flag(b)
    case WithAgent(b) => Flag(b)
    case GenID(g) => Gen(g)
    case Reject(r) => Rej(r)
  }

  /** The configuration after setter `o` runs on one with fields `s`: its
      own field holds its value and every other field is left alone. */
  function Applied(s: Settings, o: Setter): (r: Settings)
    ensures Get(r, Target(o)) == Payload(o)
    ensures forall f :: f != Target(o) ==> Get(r, f) == Get(s, f)
  {
    match o
    case CookieName(n) => s.(cookie := s.cookie.(name := n))
    case Domain(d) => s.(cookie := s.cookie.(domain := d))
    case Path(p) => s.(cookie := s.cookie.(path := p))
    case Secure(b) => s.(cookie := s.cookie.(secure := b))
    case HttpOnly(b) => s.(cookie := s.cookie.(httpOnly := b))
    case SameSite(m) => s.(cookie := s.cookie.(sameSite := m))
    case ExpiresIn(e) => s.(expiresIn := e)
    case WithIP(b) => s.(withIP := b)
    case WithAgent(b) => s.(withAgent := b)
    case GenID(g) => s.(genID := g)
    case Reject(r) => s.(reject := r)
  }

  /** The configuration after the setters `opts` run on `s`, first to last. */
  function ApplyAll(s: Settings, opts: seq<Setter>): Settings
    decreases |opts|
  {
    if opts == [] then s
    else Applied(ApplyAll(s, opts[..|opts| - 1]), opts[|opts| - 1])
  }

  /** The value the last setter in `opts` that writes `f` gives it. */
  function LastWrite(opts: seq<Setter>, f: Field): Option<Value>
    decreases |opts|
  {
    if opts == [] then None
    else if Target(opts[|opts| - 1]) == f then Some(Payload(opts[|opts| - 1]))
    else LastWrite(opts[..|opts| - 1], f)
  }

  /** Options run in order, so the last setter of a field wins, and a
      field no setter writes keeps its value. */
  lemma {:induction false} LastSetterWins(s: Settings, opts: seq<Setter>, f: Field)
    ensures Get(ApplyAll(s, opts), f) == LastWrite(opts, f).GetOr(Get(s, f))
    decreases |opts|
  {
    if opts != [] {
      LastSetterWins(s, opts[..|opts| - 1], f);
    }
  }

  /** Go's zero value of the manager's fields. */
  const ZeroSettings := Settings(
    CookiePolicy("", "", "", false, false, SameSiteUnset),
    0, false, false, NilGenID, NilReject)

  /** The value `Defaults` writes into a field; `Defaults` leaves the
      domain and the expiry duration alone. */
  function Default(f: Field): Option<Value> {
    match f
    case NameField => Some(Text(DefaultName))
    case DomainField => None
    case PathField => Some(Text("/"))
    case SecureField => Some(Flag(true))
    case HttpOnlyField => Some(Flag(true))
    case SameSiteField => Some(Mode(SameSiteStrictMode))
    case ExpiresInField => None
    case WithIPField => Some(Flag(true))
    case WithAgentField => Some(Flag(true))
    case GenIDField => Some(Gen(DefaultGenID))
    case RejectField => Some(Rej(DefaultReject))
  }

  /** The configuration after `Defaults` runs on one with fields `s`. */
  function WithDefaults(s: Settings): (r: Settings)
    ensures forall f :: Get(r, f) == Default(f).GetOr(Get(s, f))
  {
    Settings(
      CookiePolicy(DefaultName, s.cookie.domain, "/", true, true, SameSiteStrictMode),
      s.expiresIn, true, true, DefaultGenID, DefaultReject)
  }

  /** The configuration `NewManager` starts from before its options run. */
  const Initial := WithDefaults(ZeroSettings)

  /** A new manager's configuration: each field holds the value of the last
      option that writes it, or else its default: cookie name "sessionup",
      path "/", secure, HTTP-only, strict SameSite, IP and user agent
      captured, no domain and no expiry. */
  lemma NewManagerSettings(opts: seq<Setter>)
    ensures forall f :: Get(ApplyAll(Initial, opts), f) == LastWrite(opts, f).GetOr(Get(Initial, f))
    ensures Initial.cookie == CookiePolicy("sessionup", "", "/", true, true, SameSiteStrictMode)
    ensures Initial.expiresIn == 0 && Initial.withIP && Initial.withAgent
    ensures Initial.genID == DefaultGenID && Initial.reject == DefaultReject
    ensures IsToken(Initial.cookie.name)
  {
    forall f {
      LastSetterWins(Initial, opts, f);
    }
  }
}
