/**
 * The provisioning rules of account.go: the identifier allocator, the
 * e-mail check, the request mode, the unique database-name loop, the
 * admin password, the root-token format and the final response of
 * `create`. Randomness is passed in as index draws; the datastore, billing
 * and mail collaborators are passed in as their answers.
 */
module Account {
  import opened Wrappers
  import opened Strings

  /** The allocator's alphabet: no l, I, O, 0, 1 or 8. */
  const LetterRunes: string := "abcdefghijkmnopqrstuvwxyz" + "ABCDEFGHJKLMNPQRSTUVWXYZ" + "2345679"

  const DbNameLength: nat := 12
  const PasswordLength: nat := 6
  const InitialRetries: int := 10
  const DevMemoryDbName: string := "dev-memory-pk"
  const DevPassword: string := "devpw1234"
  const AdminRole: int := 100
  const DevSignUpUrl: string := "no need to sign up in dev mode"
  const LocalCustomerId: string := "cust-local-dev"
  const DefaultAllowedDomain: string := "localhost"
  const MethodPost: string := "POST"
  const ConfirmationMessage: string := "We've emailed you all the information you need to get started."

  /** `rand.Intn(len(letterRunes))`, `n` times. */
  predicate ValidDraw(draw: seq<nat>, n: nat)
  {
    |draw| == n && forall i :: 0 <= i < n ==> draw[i] < |LetterRunes|
  }

  /** What `randStringRunes` returns for a draw: the drawn letters with the first forced to `a`. */
  function RandomString(draw: seq<nat>): (s: string)
    requires |draw| >= 1 && forall i :: 0 <= i < |draw| ==> draw[i] < |LetterRunes|
    ensures |s| == |draw| && s[0] == LetterRunes[0] == 'a'
  {
    [LetterRunes[0]] + seq(|draw| - 1, i requires 0 <= i < |draw| - 1 => LetterRunes[draw[i + 1]])
  }

  predicate IsAsciiLetter(c: char)
  {
    'a' <= c <= 'z' || 'A' <= c <= 'Z'
  }

  /** After the first, every character of a drawn string is the drawn one, so all come from the alphabet. */
  lemma RandomStringShape(draw: seq<nat>)
    requires |draw| >= 1 && forall i :: 0 <= i < |draw| ==> draw[i] < |LetterRunes|
    ensures forall i :: 1 <= i < |draw| ==> RandomString(draw)[i] == LetterRunes[draw[i]]
    ensures forall i :: 0 <= i < |draw| ==> RandomString(draw)[i] in LetterRunes
  {
    var s := RandomString(draw);
    var tail := seq(|draw| - 1, i requires 0 <= i < |draw| - 1 => LetterRunes[draw[i + 1]]);
    assert s == [LetterRunes[0]] + tail;
    forall i | 1 <= i < |draw|
      ensures s[i] == LetterRunes[draw[i]]
    {
      assert s[i] == tail[i - 1];
    }
    forall i | 0 <= i < |draw|
      ensures s[i] in LetterRunes
    {
      if i > 0 {
        assert s[i] == LetterRunes[draw[i]];
      }
    }
  }

  /**
   * `randStringRunes(n)`: fill `n` runes from the draw, then overwrite the
   * first with `letterRunes[0]` (identifiers must start with a letter).
   * `n = 0` would index past the end in the source, hence `n >= 1`.
   */
  method RandStringRunes(n: nat, draw: seq<nat>) returns (s: string)
    requires n >= 1 && ValidDraw(draw, n)
    ensures s == RandomString(draw)
  {
    var b := new char[n];
    for i := 0 to n
      invariant forall j :: 0 <= j < i ==> b[j] == LetterRunes[draw[j]]
    {
      b[i] := LetterRunes[draw[i]];
    }
    b[0] := LetterRunes[0];
    s := b[..];
  }

  /** The cheap e-mail check: at least four characters, an `@` and a `.`, in any order. */
  function ValidEmail(email: string): (ok: bool)
    ensures ok <==> |email| >= 4 && '@' in email && '.' in email
  {
    !(|email| < 4 || IndexOf(email, '@') == -1 || IndexOf(email, '.') == -1)
  }

  /** Checking the lower-cased address decides the same as checking the raw one. */
  lemma ValidEmailIgnoresCase(raw: string)
    ensures ValidEmail(ToLowerAscii(raw)) == ValidEmail(raw)
  {
    LowerKeepsNonLetter(raw, '@');
    LowerKeepsNonLetter(raw, '.');
  }

  /** The fields of the request `create` reads (absent values are ""). */
  datatype Request = Request(httpMethod: string, formEmail: string, queryEmail: string, queryMem: string, queryUi: string)

  /** `config.Current`: whether `AppEnv` is the production value, and the Stripe key. */
  datatype Config = Config(isProd: bool, stripeKey: string)

  /** Production with a Stripe key: the billing steps run. */
  predicate BillingEnabled(config: Config)
  {
    config.isProd && |config.stripeKey| > 0
  }

  /** The lower-cased address and the two flags `create` derives from the request. */
  datatype Mode = Mode(email: string, fromCLI: bool, memoryMode: bool)

  /**
   * A POST comes from the web UI; anything else comes from the CLI unless it
   * carries a non-empty `ui`, and may ask for memory mode with `mem=1`
   * outside production.
   */
  function DeriveMode(req: Request, config: Config): (m: Mode)
    ensures m.memoryMode ==> req.httpMethod != MethodPost && !config.isProd && req.queryMem == "1"
    ensures req.httpMethod != MethodPost && !config.isProd && req.queryMem == "1" ==> m.memoryMode
    ensures req.httpMethod == MethodPost ==> !m.fromCLI && m.email == ToLowerAscii(req.formEmail)
    ensures req.httpMethod != MethodPost ==> (m.fromCLI <==> |req.queryUi| == 0) && m.email == ToLowerAscii(req.queryEmail)
  {
    if req.httpMethod == MethodPost then Mode(ToLowerAscii(req.formEmail), false, false)
    else
      var memoryMode := if !config.isProd then req.queryMem == "1" else false;
      var fromCLI := !(|req.queryUi| > 0);
      Mode(ToLowerAscii(req.queryEmail), fromCLI, memoryMode)
  }

  /** The answer of `datastore.DatabaseExists(name)`. */
  datatype Existence = Taken | Free | LookupFailed(message: string)

  /**
   * The `k`-th database name tried: the memory-mode name first in memory
   * mode, otherwise the name drawn with `draws[k]`. `draws[0]` is drawn
   * in both modes, as in the source.
   */
  function Candidate(memoryMode: bool, draws: seq<seq<nat>>, k: nat): string
    requires k < |draws| && forall j :: 0 <= j < |draws| ==> ValidDraw(draws[j], DbNameLength)
  {
    if k == 0 && memoryMode then DevMemoryDbName
    else
      assert ValidDraw(draws[k], DbNameLength);
      RandomString(draws[k])
  }

  /** Every candidate starts with a letter. */
  lemma CandidateStartsWithLetter(memoryMode: bool, draws: seq<seq<nat>>, k: nat)
    requires k < |draws| && forall j :: 0 <= j < |draws| ==> ValidDraw(draws[j], DbNameLength)
    ensures |Candidate(memoryMode, draws, k)| > 0 && IsAsciiLetter(Candidate(memoryMode, draws, k)[0])
  {
    assert LetterRunes[0] == 'a' && DevMemoryDbName[0] == 'd';
  }

  /** Candidate `k` is the first one the datastore does not report as taken. */
  predicate FirstNotTaken(memoryMode: bool, draws: seq<seq<nat>>, databaseExists: string -> Existence, k: nat)
    requires forall j :: 0 <= j < |draws| ==> ValidDraw(draws[j], DbNameLength)
  {
    && k < |draws|
    && (forall j :: 0 <= j < k ==> databaseExists(Candidate(memoryMode, draws, j)) == Taken)
    && databaseExists(Candidate(memoryMode, draws, k)) != Taken
  }

  /** What the loop ends with when it stops at `name`: the name if free, the lookup error otherwise. */
  function Settle(name: string, answer: Existence): Result<string, string>
  {
    if answer.LookupFailed? then Failure(answer.message) else Success(name)
  }

  /**
   * The unique-name loop of `create`. Each collision decrements `retry`,
   * which is never tested, so there is no exhaustion failure; the draw
   * sequence is finite, so some candidate must not be taken. The loop stops
   * at the first candidate not taken: with that name when it is free, with
   * the lookup error when the lookup fails.
   */
  method AllocateDbName(memoryMode: bool, draws: seq<seq<nat>>, databaseExists: string -> Existence)
    returns (r: Result<string, string>)
    requires forall j :: 0 <= j < |draws| ==> ValidDraw(draws[j], DbNameLength)
    requires exists k :: 0 <= k < |draws| && databaseExists(Candidate(memoryMode, draws, k)) != Taken
    ensures exists k :: FirstNotTaken(memoryMode, draws, databaseExists, k) &&
              var name := Candidate(memoryMode, draws, k); r == Settle(name, databaseExists(name))
    ensures r.Success? ==> databaseExists(r.value) == Free
    ensures r.Success? ==> |r.value| > 0 && IsAsciiLetter(r.value[0])
    ensures r.Success? && memoryMode ==> (r.value == DevMemoryDbName <==> databaseExists(DevMemoryDbName) == Free)
  {
    var retry := InitialRetries;
    var k := 0;
    var dbName := RandStringRunes(DbNameLength, draws[0]);
    if memoryMode {
      dbName := DevMemoryDbName;
    }
    while true
      invariant 0 <= k < |draws|
      invariant dbName == Candidate(memoryMode, draws, k)
      invariant forall j :: 0 <= j < k ==> databaseExists(Candidate(memoryMode, draws, j)) == Taken
      invariant retry == InitialRetries - k
      decreases |draws| - k
    {
      var answer := databaseExists(dbName);
      if answer.LookupFailed? {
        r := Failure(answer.message);
        assert FirstNotTaken(memoryMode, draws, databaseExists, k) && r == Settle(dbName, answer);
        return;
      } else if answer == Taken {
        NextCandidateExists(memoryMode, draws, databaseExists, k);
        retry := retry - 1;
        dbName := RandStringRunes(DbNameLength, draws[k + 1]);
        k := k + 1;
        continue;
      }
      break;
    }
    r := Success(dbName);
    assert FirstNotTaken(memoryMode, draws, databaseExists, k) && r == Settle(dbName, databaseExists(dbName));
    CandidateStartsWithLetter(memoryMode, draws, k);
    if memoryMode && k > 0 {
      NamesDifferFromDevName(draws[k]);
    }
  }

  /** Only one index is the first candidate not taken. */
  lemma FirstNotTakenUnique(memoryMode: bool, draws: seq<seq<nat>>, databaseExists: string -> Existence, k: nat)
    requires forall j :: 0 <= j < |draws| ==> ValidDraw(draws[j], DbNameLength)
    requires FirstNotTaken(memoryMode, draws, databaseExists, k)
    ensures forall k': nat :: FirstNotTaken(memoryMode, draws, databaseExists, k') ==> k' == k
  {
  }

  /** While every candidate so far was taken, a further draw remains. */
  lemma NextCandidateExists(memoryMode: bool, draws: seq<seq<nat>>, databaseExists: string -> Existence, k: nat)
    requires forall j :: 0 <= j < |draws| ==> ValidDraw(draws[j], DbNameLength)
    requires exists k :: 0 <= k < |draws| && databaseExists(Candidate(memoryMode, draws, k)) != Taken
    requires k < |draws| && forall j :: 0 <= j <= k ==> databaseExists(Candidate(memoryMode, draws, j)) == Taken
    ensures k + 1 < |draws|
  {
    var free :| 0 <= free < |draws| && databaseExists(Candidate(memoryMode, draws, free)) != Taken;
  }

  /** A drawn name starts with `a`, so it is never the memory-mode name. */
  lemma NamesDifferFromDevName(draw: seq<nat>)
    requires ValidDraw(draw, DbNameLength)
    ensures RandomString(draw) != DevMemoryDbName
  {
    assert RandomString(draw)[0] == 'a' && DevMemoryDbName[0] == 'd';
  }

  /** The three fields of the admin's token that make up the root token. */
  datatype IssuedToken = IssuedToken(id: string, accountId: string, token: string)

  /** The root token `ID|AccountID|Token`: the three fields in that order, each followed by `|` but the last. */
  function RootToken(id: string, accountId: string, token: string): (s: string)
    ensures |s| == |id| + |accountId| + |token| + 2
    ensures s[..|id|] == id && s[|id|] == '|'
    ensures s[|id| + 1..|id| + 1 + |accountId|] == accountId && s[|id| + 1 + |accountId|] == '|'
    ensures s[|id| + 2 + |accountId|..] == token
  {
    id + "|" + accountId + "|" + token
  }

  /** Splitting a root token on `|` gives its three components back. */
  lemma RootTokenSplits(id: string, accountId: string, token: string)
    requires '|' !in id && '|' !in accountId && '|' !in token
    ensures Split(RootToken(id, accountId, token), '|') == [id, accountId, token]
  {
    ChainAssoc(id, "|", accountId, "|", token);
    SplitAtFirstSeparator(id, '|', accountId + ['|'] + token);
    SplitAtFirstSeparator(accountId, '|', token);
    SplitWithoutSeparator(token, '|');
  }

  /** Every string with exactly three `|`-parts is the root token of those parts. */
  lemma ThreePartsAreRootToken(s: string)
    requires |Split(s, '|')| == 3
    ensures var p := Split(s, '|'); s == RootToken(p[0], p[1], p[2])
  {
    var p := Split(s, '|');
    JoinSplit(s, '|');
    assert p[1..][1..] == [p[2]];
    assert Join(p[1..], '|') == p[1] + ['|'] + p[2];
    assert Join(p, '|') == p[0] + ['|'] + (p[1] + ['|'] + p[2]);
    ChainAssoc(p[0], "|", p[1], "|", p[2]);
  }

  /** The three outcomes `create` ends with. */
  datatype Response = Plain(value: string) | Redirect(location: string) | Confirmation(message: string)

  /**
   * CLI callers get the sign-up URL as a plain value; browser callers are
   * redirected when it is an https URL and shown the confirmation otherwise.
   */
  function SelectResponse(fromCLI: bool, signUpUrl: string): (r: Response)
    ensures fromCLI ==> r == Plain(signUpUrl)
    ensures !fromCLI && HasPrefix(signUpUrl, "https") ==> r == Redirect(signUpUrl)
    ensures !fromCLI && !HasPrefix(signUpUrl, "https") ==> r == Confirmation(ConfirmationMessage)
  {
    if fromCLI then Plain(signUpUrl)
    else if HasPrefix(signUpUrl, "https") then Redirect(signUpUrl)
    else Confirmation(ConfirmationMessage)
  }

  /** Without billing the sign-up URL is the placeholder, which never redirects. */
  lemma DevPlaceholderNeverRedirects(fromCLI: bool)
    ensures !SelectResponse(fromCLI, DevSignUpUrl).Redirect?
  {
    assert DevSignUpUrl[0] == 'n';
  }

  /** What each collaborator answers (`Failure`/`Fail` carries the error text). */
  datatype Collaborators = Collaborators(
    emailExists: Result<bool, string>,           // datastore.EmailExists
    billingCustomer: Result<string, string>,     // customer.New, the Stripe customer ID
    billingSubscription: Result<string, string>, // sub.New, the subscription ID
    createCustomer: Result<string, string>,      // datastore.CreateCustomer, the stored ID
    databaseExists: string -> Existence,         // datastore.DatabaseExists
    createBase: Outcome<string>,                 // datastore.CreateBase
    createAdmin: Outcome<string>,                // membership.createAccountAndUser
    portalSession: Result<string, string>,       // session.New, the portal URL
    tokenByEmail: Result<IssuedToken, string>,   // datastore.FindTokenByEmail
    sendMail: Outcome<string>)                   // emailer.Send

  /** The customer record `create` writes. */
  datatype Customer = Customer(id: string, email: string, stripeId: string, subscriptionId: string, isActive: bool)

  /** The base (tenant database) record `create` writes. */
  datatype BaseRecord = BaseRecord(id: string, customerId: string, name: string, isActive: bool, allowedDomains: seq<string>)

  /** The admin user `create` asks for. */
  datatype AdminUser = AdminUser(dbName: string, email: string, password: string, role: int)

  /** Everything a successful `create` produced. */
  datatype Provisioned = Provisioned(customer: Customer, base: BaseRecord, admin: AdminUser, rootToken: string, response: Response)

  /** Why `create` stopped: status 400 for the address, 500 for the rest. */
  datatype CreateError = InvalidEmail | EmailTaken | Internal(message: string)

  const StatusBadRequest: int := 400
  const StatusInternalServerError: int := 500

  /** A bad address is the caller's fault; a taken address and every collaborator failure are the server's. */
  function StatusOf(e: CreateError): (status: int)
    ensures status == StatusBadRequest <==> e.InvalidEmail?
    ensures status == StatusInternalServerError <==> e.EmailTaken? || e.Internal?
  {
    if e == InvalidEmail then StatusBadRequest else StatusInternalServerError
  }

  /** The address is well formed and not yet registered: `create` goes on to billing. */
  predicate AddressAccepted(req: Request, config: Config, ext: Collaborators)
  {
    ValidEmail(DeriveMode(req, config).email) && ext.emailExists == Success(false)
  }

  /** Billing is off, or both the Stripe customer and the subscription were created. */
  predicate BillingPasses(config: Config, ext: Collaborators)
  {
    BillingEnabled(config) ==> ext.billingCustomer.Success? && ext.billingSubscription.Success?
  }

  /** Every step before the unique-name loop succeeded, so `create` enters the loop. */
  predicate ReachesNameLoop(req: Request, config: Config, ext: Collaborators)
  {
    AddressAccepted(req, config, ext) && BillingPasses(config, ext) && ext.createCustomer.Success?
  }

  /** The first candidate not reported taken is free, so the loop settles on a name. */
  ghost predicate NameFound(req: Request, config: Config, dbDraws: seq<seq<nat>>, ext: Collaborators)
    requires forall j :: 0 <= j < |dbDraws| ==> ValidDraw(dbDraws[j], DbNameLength)
  {
    forall k :: FirstNotTaken(DeriveMode(req, config).memoryMode, dbDraws, ext.databaseExists, k) ==>
                ext.databaseExists(Candidate(DeriveMode(req, config).memoryMode, dbDraws, k)) == Free
  }

  /**
   * The `create` handler, step by step; each failing collaborator stops it
   * with that collaborator's error, and records already written stay.
   */
  method Create(req: Request, config: Config, dbDraws: seq<seq<nat>>, pwDraw: seq<nat>, ext: Collaborators)
    returns (r: Result<Provisioned, CreateError>)
    requires forall j :: 0 <= j < |dbDraws| ==> ValidDraw(dbDraws[j], DbNameLength)
    requires ValidDraw(pwDraw, PasswordLength)
    requires ReachesNameLoop(req, config, ext) ==>
               exists k :: 0 <= k < |dbDraws| && ext.databaseExists(Candidate(DeriveMode(req, config).memoryMode, dbDraws, k)) != Taken
    ensures !ValidEmail(DeriveMode(req, config).email) ==> r == Failure(InvalidEmail)
    ensures ValidEmail(DeriveMode(req, config).email) && ext.emailExists == Success(true) ==> r == Failure(EmailTaken)
    ensures ValidEmail(DeriveMode(req, config).email) && ext.emailExists.Failure? ==> r == Failure(Internal(ext.emailExists.error))
    ensures AddressAccepted(req, config, ext) && r.Failure? ==> r.error.Internal?
    ensures AddressAccepted(req, config, ext) && BillingEnabled(config) && ext.billingCustomer.Failure? ==>
              r == Failure(Internal(ext.billingCustomer.error))
    ensures AddressAccepted(req, config, ext) && BillingEnabled(config) && ext.billingCustomer.Success? &&
            ext.billingSubscription.Failure? ==>
              r == Failure(Internal(ext.billingSubscription.error))
    ensures AddressAccepted(req, config, ext) && BillingPasses(config, ext) && ext.createCustomer.Failure? ==>
              r == Failure(Internal(ext.createCustomer.error))
    ensures ReachesNameLoop(req, config, ext) ==>
              forall k :: FirstNotTaken(DeriveMode(req, config).memoryMode, dbDraws, ext.databaseExists, k) &&
                          ext.databaseExists(Candidate(DeriveMode(req, config).memoryMode, dbDraws, k)).LookupFailed? ==>
                r == Failure(Internal(ext.databaseExists(Candidate(DeriveMode(req, config).memoryMode, dbDraws, k)).message))
    ensures ReachesNameLoop(req, config, ext) && NameFound(req, config, dbDraws, ext) && ext.createBase.Fail? ==>
              r == Failure(Internal(ext.createBase.error))
    ensures ReachesNameLoop(req, config, ext) && NameFound(req, config, dbDraws, ext) && ext.createBase.Pass? &&
            ext.createAdmin.Fail? ==>
              r == Failure(Internal(ext.createAdmin.error))
    ensures ReachesNameLoop(req, config, ext) && NameFound(req, config, dbDraws, ext) && ext.createBase.Pass? &&
            ext.createAdmin.Pass? && BillingEnabled(config) && ext.portalSession.Failure? ==>
              r == Failure(Internal(ext.portalSession.error))
    ensures ReachesNameLoop(req, config, ext) && NameFound(req, config, dbDraws, ext) && ext.createBase.Pass? &&
            ext.createAdmin.Pass? && (BillingEnabled(config) ==> ext.portalSession.Success?) &&
            ext.tokenByEmail.Failure? ==>
              r == Failure(Internal(ext.tokenByEmail.error))
    ensures ReachesNameLoop(req, config, ext) && NameFound(req, config, dbDraws, ext) && ext.createBase.Pass? &&
            ext.createAdmin.Pass? && (BillingEnabled(config) ==> ext.portalSession.Success?) &&
            ext.tokenByEmail.Success? && !DeriveMode(req, config).memoryMode && ext.sendMail.Fail? ==>
              r == Failure(Internal(ext.sendMail.error))
    ensures r.Success? ==> ValidEmail(DeriveMode(req, config).email) && ext.emailExists == Success(false)
    ensures r.Success? ==> ext.createCustomer.Success? && ext.createBase.Pass? && ext.createAdmin.Pass? && ext.tokenByEmail.Success?
    ensures r.Success? && BillingEnabled(config) ==>
              ext.billingCustomer.Success? && ext.billingSubscription.Success? && ext.portalSession.Success?
    ensures r.Success? && !DeriveMode(req, config).memoryMode ==> ext.sendMail.Pass?
    ensures r.Success? ==>
              var m, p := DeriveMode(req, config), r.value;
              && p.customer == Customer(LocalCustomerId, m.email,
                                        if BillingEnabled(config) then ext.billingCustomer.value else "",
                                        if BillingEnabled(config) then ext.billingSubscription.value else "",
                                        !BillingEnabled(config))
              && p.base == BaseRecord(p.base.name, ext.createCustomer.value, p.base.name, p.customer.isActive, [DefaultAllowedDomain])
              && (exists k :: FirstNotTaken(m.memoryMode, dbDraws, ext.databaseExists, k) &&
                             p.base.name == Candidate(m.memoryMode, dbDraws, k))
              && ext.databaseExists(p.base.name) == Free
              && |p.base.name| > 0 && IsAsciiLetter(p.base.name[0])
              && p.admin == AdminUser(p.base.name, m.email, if m.memoryMode then DevPassword else RandomString(pwDraw), AdminRole)
              && p.rootToken == RootToken(ext.tokenByEmail.value.id, ext.tokenByEmail.value.accountId, ext.tokenByEmail.value.token)
              && p.response == SelectResponse(m.fromCLI, if BillingEnabled(config) then ext.portalSession.value else DevSignUpUrl)
    ensures r.Success? && DeriveMode(req, config).memoryMode && ext.databaseExists(DevMemoryDbName) == Free ==>
              r.value.base.name == DevMemoryDbName
    ensures var m := DeriveMode(req, config);
            && ValidEmail(m.email) && ext.emailExists == Success(false)
            && (BillingEnabled(config) ==>
                  ext.billingCustomer.Success? && ext.billingSubscription.Success? && ext.portalSession.Success?)
            && ext.createCustomer.Success? && ext.createBase.Pass? && ext.createAdmin.Pass? && ext.tokenByEmail.Success?
            && (!m.memoryMode ==> ext.sendMail.Pass?)
            && (forall k :: FirstNotTaken(m.memoryMode, dbDraws, ext.databaseExists, k) ==>
                             ext.databaseExists(Candidate(m.memoryMode, dbDraws, k)) == Free)
            ==> r.Success?
  {
    var mode := DeriveMode(req, config);
    if !ValidEmail(mode.email) {
      return Failure(InvalidEmail);
    }
    match ext.emailExists {
      case Failure(e) => return Failure(Internal(e));
      case Success(taken) =>
        if taken {
          return Failure(EmailTaken);
        }
    }

    var stripeCustomerId, subId := "", "";
    var active := true;
    if BillingEnabled(config) {
      active := false;
      if ext.billingCustomer.Failure? {
        return Failure(Internal(ext.billingCustomer.error));
      }
      stripeCustomerId := ext.billingCustomer.value;
      if ext.billingSubscription.Failure? {
        return Failure(Internal(ext.billingSubscription.error));
      }
      subId := ext.billingSubscription.value;
    }

    var cust := Customer(LocalCustomerId, mode.email, stripeCustomerId, subId, active);
    if ext.createCustomer.Failure? {
      return Failure(Internal(ext.createCustomer.error));
    }

    var chosen := AllocateDbName(mode.memoryMode, dbDraws, ext.databaseExists);
    ghost var first :| FirstNotTaken(mode.memoryMode, dbDraws, ext.databaseExists, first) &&
                       chosen == Settle(Candidate(mode.memoryMode, dbDraws, first),
                                        ext.databaseExists(Candidate(mode.memoryMode, dbDraws, first)));
    FirstNotTakenUnique(mode.memoryMode, dbDraws, ext.databaseExists, first);
    if chosen.Failure? {
      return Failure(Internal(chosen.error));
    }
    var dbName := chosen.value;

    var base := BaseRecord(dbName, ext.createCustomer.value, dbName, active, [DefaultAllowedDomain]);
    if ext.createBase.Fail? {
      return Failure(Internal(ext.createBase.error));
    }

    var pw := RandStringRunes(PasswordLength, pwDraw);
    if mode.memoryMode {
      pw := DevPassword;
    }
    var admin := AdminUser(dbName, mode.email, pw, AdminRole);
    if ext.createAdmin.Fail? {
      return Failure(Internal(ext.createAdmin.error));
    }

    var signUpUrl := DevSignUpUrl;
    if BillingEnabled(config) {
      if ext.portalSession.Failure? {
        return Failure(Internal(ext.portalSession.error));
      }
      signUpUrl := ext.portalSession.value;
    }

    if ext.tokenByEmail.Failure? {
      return Failure(Internal(ext.tokenByEmail.error));
    }
    var token := ext.tokenByEmail.value;
    var rootToken := RootToken(token.id, token.accountId, token.token);

    if !mode.memoryMode && ext.sendMail.Fail? {
      return Failure(Internal(ext.sendMail.error));
    }

    r := Success(Provisioned(cust, base, admin, rootToken, SelectResponse(mode.fromCLI, signUpUrl)));
  }

  /** The draw of all zeros: every drawn letter is `a`. */
  function ZeroDraw(n: nat): (d: seq<nat>)
    ensures ValidDraw(d, n)
  {
    seq(n, _ => 0)
  }

  /**
   * A memory-mode CLI sign-up (a GET with `mem=1` and no `ui`, outside
   * production) with the datastore answering without error and
   * `dev-memory-pk` free: the base is `dev-memory-pk`, the password
   * `devpw1234`, the customer is active at once, no mail is needed, and the
   * caller gets the placeholder as a plain value.
   */
  method MemoryModeSignUp(email: string, ext: Collaborators) returns (p: Provisioned)
    requires ValidEmail(ToLowerAscii(email))
    requires ext.emailExists == Success(false) && ext.createCustomer.Success?
    requires ext.createBase.Pass? && ext.createAdmin.Pass? && ext.tokenByEmail.Success?
    requires ext.databaseExists(DevMemoryDbName) == Free
    ensures p.base.name == DevMemoryDbName && p.admin.password == DevPassword && p.admin.role == AdminRole
    ensures p.customer.isActive && p.customer.email == ToLowerAscii(email)
    ensures p.response == Plain(DevSignUpUrl)
    ensures p.rootToken == RootToken(ext.tokenByEmail.value.id, ext.tokenByEmail.value.accountId, ext.tokenByEmail.value.token)
  {
    var req := Request("GET", "", email, "1", "");
    var config := Config(false, "");
    var draw, pwDraw := ZeroDraw(DbNameLength), ZeroDraw(PasswordLength);
    assert DeriveMode(req, config) == Mode(ToLowerAscii(email), true, true);
    assert Candidate(true, [draw], 0) == DevMemoryDbName;
    assert forall k :: FirstNotTaken(true, [draw], ext.databaseExists, k) ==> k == 0;
    var r := Create(req, config, [draw], pwDraw, ext);
    p := r.value;
  }
}
