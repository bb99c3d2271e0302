/** The line protocol spoken with the bootstrap server: the commands sent and the replies parsed. */
module Protocol {
  import opened Bytes

  datatype Command =
    | AuthRegister(nick: QString, password: QString)
    | AuthLogin(nick: QString, password: QString)
    | AuthVerify(token: QString)
    | AuthLogout(token: QString)
    | Register(nick: QString, port: nat, key: bytes)
    | Find(nick: QString)
    | Unregister(nick: QString)
    | Store(nick: QString, blob: bytes)
    | Fetch(nick: QString)

  /** The nicknames looked up, in order. */
  function Finds(cmds: seq<Command>): seq<QString> {
    if cmds == [] then []
    else Finds(cmds[..|cmds| - 1]) + if cmds[|cmds| - 1].Find? then [cmds[|cmds| - 1].nick] else []
  }

  lemma FindsAppend(cmds: seq<Command>, cmd: Command)
    ensures Finds(cmds + [cmd]) == Finds(cmds) + if cmd.Find? then [cmd.nick] else []
  {
    assert (cmds + [cmd])[..|cmds|] == cmds;
  }

  function Decimal(n: nat): bytes {
    (if n < 10 then [] else Decimal(n / 10)) + [48 + n % 10]
  }

  /** Colon-separated fields. */
  function Fields(a: QString, b: QString): QString {
    Joined<unit>(a, COLON, b)
  }

  /** The line a command is sent as, without its newline. */
  function Render(cmd: Command): QString {
    match cmd
    case AuthRegister(nick, password) => Fields(Ascii("AUTH_REGISTER"), Fields(nick, password))
    case AuthLogin(nick, password) => Fields(Ascii("AUTH_LOGIN"), Fields(nick, password))
    case AuthVerify(token) => Fields(Ascii("AUTH_VERIFY"), token)
    case AuthLogout(token) => Fields(Ascii("AUTH_LOGOUT"), token)
    case Register(nick, port, key) => Fields(Ascii("REGISTER"), Fields(nick, Fields(Decimal(port), ToHex(key))))
    case Find(nick) => Fields(Ascii("FIND"), nick)
    case Unregister(nick) => Fields(Ascii("UNREGISTER"), nick)
    case Store(nick, blob) => Fields(STORE(), Fields(nick, ToHex(blob)))
    case Fetch(nick) => Fields(Ascii("FETCH"), nick)
  }

  function STORE(): QString { Ascii("STORE") }

  lemma StoreWord()
    ensures COLON !in STORE()
  {
  }

  /** What a server reads back from a STORE line: the peer and the exact blob. */
  lemma StoreLineRoundTrip(nick: QString, blob: bytes)
    requires COLON !in nick
    ensures Split<unit>(Render(Store(nick, blob)), COLON) == [STORE(), nick, ToHex(blob)]
    ensures FromHex(ToHex(blob)) == blob
  {
    HexRoundTrip(blob);
    StoreWord();
    hide Ascii, ToHex, Split, Joined, FromHex;
    SplitThree<unit>(STORE(), nick, COLON, ToHex(blob));
  }

  /** What the client emits for a reply. A port stays text here. */
  datatype Signal =
    | AuthRegisterSuccess
    | AuthRegisterFailed(reason: QString)
    | AuthLoginSuccess(token: QString, nick: QString)
    | AuthLoginFailed(reason: QString)
    | AuthVerifySuccess(nick: QString)
    | AuthVerifyFailed(reason: QString)
    | AuthLogoutSuccess
    | UserFound(nick: QString, host: QString, port: QString, key: bytes)
    | UserNotFound(nick: QString)
    | StoreConfirmed
    | StoreFailed(reason: QString)
    | MessagesFetched(blobs: seq<bytes>)
    | Registered(ip: QString)

  /** The replies in the order they are tested, and whether the whole line must match. */
  const BRANCHES := 14

  function Prefix(i: nat): bytes
    requires i < BRANCHES
  {
    if i == 0 then Ascii("AUTH_REG_OK") else if i == 1 then Ascii("AUTH_REG_ERR:")
    else if i == 2 then Ascii("AUTH_LOGIN_OK:") else if i == 3 then Ascii("AUTH_LOGIN_ERR:")
    else if i == 4 then Ascii("AUTH_VERIFY_OK:") else if i == 5 then Ascii("AUTH_VERIFY_ERR:")
    else if i == 6 then Ascii("AUTH_LOGOUT_OK") else if i == 7 then Ascii("FOUND:")
    else if i == 8 then Ascii("NOT_FOUND") else if i == 9 then Ascii("OK")
    else if i == 10 then Ascii("ERROR:") else if i == 11 then Ascii("EMPTY")
    else if i == 12 then Ascii("MSG:") else Ascii("REGISTER_OK:")
  }

  predicate Exact(i: nat) {
    i == 0 || i == 6 || i == 8 || i == 9 || i == 11
  }

  predicate Matches(i: nat, line: QString)
    requires i < BRANCHES
  {
    var p: QString := Prefix(i);
    if Exact(i) then line == p else p <= line
  }

  /** The body of a branch, given the line after its prefix. */
  function Emit(i: nat, rest: QString, pendingAuth: QString, pendingFind: QString): Option<Signal>
    requires i < BRANCHES
  {
    if i == 0 then Some(AuthRegisterSuccess) else if i == 1 then Some(AuthRegisterFailed(rest))
    else if i == 2 then Some(AuthLoginSuccess(rest, pendingAuth)) else if i == 3 then Some(AuthLoginFailed(rest))
    else if i == 4 then Some(AuthVerifySuccess(rest)) else if i == 5 then Some(AuthVerifyFailed(rest))
    else if i == 6 then Some(AuthLogoutSuccess)
    else if i == 7 then
      var parts := Split<unit>(rest, BAR);
      if |parts| == 3 then Some(UserFound(pendingFind, parts[0], parts[1], FromHex(parts[2]))) else None
    else if i == 8 then Some(UserNotFound(pendingFind))
    else if i == 9 then Some(StoreConfirmed) else if i == 10 then Some(StoreFailed(rest))
    else if i == 11 then Some(MessagesFetched([]))
    else if i == 12 then
      var blob := FromHex(rest);
      if blob != [] then Some(MessagesFetched([blob])) else None
    else Some(Registered(rest))
  }

  /** The chain of branches from the `i`-th on; an unknown line emits nothing. */
  function ParseFrom(i: nat, line: QString, pendingAuth: QString, pendingFind: QString): Option<Signal>
    requires i <= BRANCHES
    decreases BRANCHES - i
  {
    if i == BRANCHES then None
    else if Matches(i, line) then Emit(i, line[|Prefix(i)|..], pendingAuth, pendingFind)
    else ParseFrom(i + 1, line, pendingAuth, pendingFind)
  }

  function ParseResponse(line: QString, pendingAuth: QString, pendingFind: QString): Option<Signal> {
    ParseFrom(0, line, pendingAuth, pendingFind)
  }

  /** The characters by which the reply prefixes are told apart. */
  lemma PrefixHeads(i: nat)
    requires i < BRANCHES
    ensures |Prefix(i)| >= 2
    ensures (Prefix(i)[0], Prefix(i)[1])
         == if i < 7 then (65, 85) else if i == 7 then (70, 79)
            else if i == 8 then (78, 79) else if i == 9 then (79, 75)
            else if i == 10 then (69, 82) else if i == 11 then (69, 77) else if i == 12 then (77, 83) else (82, 69)
  {
  }

  lemma AuthHeads(i: nat)
    requires i < 7
    ensures |Prefix(i)| >= 11
    ensures Prefix(i)[5] == if i < 2 then 82 else if i < 4 || i == 6 then 76 else 86
    ensures Prefix(i)[8] == if i < 2 then 95 else if i < 4 then 73 else if i < 6 then 73 else 79
    ensures i < 2 ==> Prefix(i)[9] == if i == 0 then 79 else 69
    ensures 2 <= i < 4 ==> |Prefix(i)| > 11 && Prefix(i)[11] == if i == 2 then 79 else 69
    ensures 4 <= i < 6 ==> |Prefix(i)| > 12 && Prefix(i)[12] == if i == 4 then 79 else 69
  {
  }

  /** No reply prefix begins another one. */
  lemma PrefixesDiffer(i: nat, j: nat)
    requires i < j < BRANCHES
    ensures exists k :: 0 <= k < |Prefix(i)| && k < |Prefix(j)| && Prefix(i)[k] != Prefix(j)[k]
  {
    PrefixHeads(i);
    PrefixHeads(j);
    if j < 7 {
      AuthHeads(i);
      AuthHeads(j);
    }
    hide Prefix;
    var p, q := Prefix(i), Prefix(j);
    if j >= 7 {
      assert p[0] != q[0] || p[1] != q[1];
    } else if j == i + 1 && i % 2 == 0 && i < 6 {
      assert if i == 0 then p[9] != q[9] else if i == 2 then p[11] != q[11] else p[12] != q[12];
    } else {
      assert p[5] != q[5] || p[8] != q[8];
    }
  }

  /** The branches exclude each other, so the order they are tested in does not matter. */
  lemma BranchesExclusive(i: nat, j: nat, line: QString)
    requires i < BRANCHES && j < BRANCHES && i != j && Matches(i, line)
    ensures !Matches(j, line)
  {
    PrefixesDiffer(if i < j then i else j, if i < j then j else i);
    hide Prefix, Exact;
  }

  lemma {:induction false} ParseFromFinds(from: nat, i: nat, line: QString, pendingAuth: QString, pendingFind: QString)
    requires from <= i < BRANCHES && Matches(i, line)
    ensures ParseFrom(from, line, pendingAuth, pendingFind) == Emit(i, line[|Prefix(i)|..], pendingAuth, pendingFind)
    decreases i - from
  {
    hide Prefix, Emit, Matches;
    if from != i {
      BranchesExclusive(i, from, line);
      ParseFromFinds(from + 1, i, line, pendingAuth, pendingFind);
    }
  }

  /** Whichever branch a line matches decides the signal. */
  lemma ParseIsOrderFree(i: nat, line: QString, pendingAuth: QString, pendingFind: QString)
    requires i < BRANCHES && Matches(i, line)
    ensures ParseResponse(line, pendingAuth, pendingFind)
         == Emit(i, line[|Prefix(i)|..], pendingAuth, pendingFind)
  {
    ParseFromFinds(0, i, line, pendingAuth, pendingFind);
  }

  lemma ParsePrefixed(i: nat, rest: QString, pendingAuth: QString, pendingFind: QString)
    requires i < BRANCHES && (Exact(i) ==> rest == [])
    ensures var p: QString := Prefix(i);
            ParseResponse(p + rest, pendingAuth, pendingFind) == Emit(i, rest, pendingAuth, pendingFind)
  {
    hide Prefix, Emit;
    var p: QString := Prefix(i);
    var line := p + rest;
    assert Matches(i, line);
    assert line[|p|..] == rest;
    ParseIsOrderFree(i, line, pendingAuth, pendingFind);
  }

  /** A relayed blob comes back verbatim, and an empty one not at all. */
  lemma ParseMessage(blob: bytes, auth: QString, find: QString)
    ensures var p: QString, hex: QString := Prefix(12), ToHex(blob);
            ParseResponse(p + hex, auth, find) == if blob == [] then None else Some(MessagesFetched([blob]))
  {
    HexRoundTrip(blob);
    ParsePrefixed(12, ToHex(blob), auth, find);
  }

  /** A found peer is reported, under the nickname most recently asked for, with its exact key. */
  lemma ParseFound(host: QString, port: QString, key: bytes, auth: QString, find: QString)
    requires BAR !in host && BAR !in port
    ensures var p: QString, hex: QString := Prefix(7), ToHex(key);
            ParseResponse(p + Joined<unit>(host, BAR, Joined<unit>(port, BAR, hex)), auth, find)
            == Some(UserFound(find, host, port, key))
  {
    HexRoundTrip(key);
    var hex: QString := ToHex(key);
    hide ToHex, Joined, Split, FromHex, Prefix;
    SplitThree<unit>(host, port, BAR, hex);
    ParsePrefixed(7, Joined<unit>(host, BAR, Joined<unit>(port, BAR, hex)), auth, find);
  }
}
