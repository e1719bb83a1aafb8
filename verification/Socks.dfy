/** The SOCKS5 client (sections 3, 4 and 6 of RFC 1928, section 2 of RFC 1929): what it says, what it
    makes of the answers, and where it leaves the stream. */
module SocksClient {
  import opened Wrappers
  import opened Bytes

  datatype Credentials = Credentials(username: seq<byte>, password: seq<byte>)

  datatype Saw = HungUp | Http | Octet(b: byte)

  datatype SocksError = WrongProtocol(saw: Saw) | AuthRejected | NoLoginAccepted | BadRequest
      | ConnectRejected(code: byte) | Io

  /** What a read past the server's last octet meets: a closed connection, or some other failure. */
  datatype End = Closed | Failed

  /** How a connection behaves: what ends its input, and how many writes succeed on it. */
  datatype Link = Link(end: End, writable: nat)

  /** The octet 'H', with which an HTTP answer begins. */
  const LETTER_H: byte := 72

  // ----- what the client says -----

  function Greeting(login: bool): seq<byte> {
    if login then [5, 2, 0, 2] else [5, 1, 0]
  }

  /** A length as one octet, the way a cast writes it. */
  function LowOctet(n: nat): byte {
    (n % 256) as byte
  }

  function Login(c: Credentials): seq<byte> {
    [1, LowOctet(|c.username|)] + c.username + ([LowOctet(|c.password|)] + c.password)
  }

  function Request(host: seq<byte>, port: u16): seq<byte> {
    [5, 1, 0, 3, LowOctet(|host|)] + host + Be16Bytes(port)
  }

  // ----- what it makes of the answers -----

  /** The method the server chooses. */
  function Chosen(input: seq<byte>, link: Link): Result<byte, SocksError> {
    if link.writable < 1 then Err(Io)
    else if |input| < 2 then Err(if link.end == Closed then WrongProtocol(HungUp) else Io)
    else if input[0] != 5 then Err(WrongProtocol(if input[0] == LETTER_H then Http else Octet(input[0])))
    else Ok(input[1])
  }

  /** Where the choice, and the login if it is asked for, leave the stream. */
  function Admitted(input: seq<byte>, link: Link, login: bool): Result<nat, SocksError> {
    match Chosen(input, link)
    case Err(e) => Err(e)
    case Ok(choice) =>
      if choice == 0 then Ok(2)
      else if choice == 2 then
        if !login then Err(AuthRejected)
        else if link.writable < 2 || |input| < 4 then Err(Io)
        else if input[3] != 0 then Err(AuthRejected)
        else Ok(4)
      else if choice == 255 && login then Err(NoLoginAccepted)
      else Err(AuthRejected)
  }

  /** Where the reply to the request, with its bound address of any type, leaves the stream. */
  function Replied(input: seq<byte>, at: nat): Result<nat, SocksError> {
    if |input| < at + 4 then Err(Io)
    else if input[at + 1] != 0 then Err(ConnectRejected(input[at + 1]))
    else
      var kind := input[at + 3];
      if kind == 1 then Reach(input, at + 10)
      else if kind == 3 then if |input| < at + 5 then Err(Io) else Reach(input, at + 7 + input[at + 4] as nat)
      else if kind == 4 then Reach(input, at + 22)
      else Err(BadRequest)
  }

  function Reach(input: seq<byte>, end: nat): Result<nat, SocksError> {
    if end <= |input| then Ok(end) else Err(Io)
  }

  predicate AsksLogin(input: seq<byte>) {
    |input| >= 2 && input[0] == 5 && input[1] == 2
  }

  /** The request goes out: it is the third write after a login, and the second without one. */
  predicate Requests(input: seq<byte>, link: Link, host: seq<byte>) {
    |host| <= 255 && link.writable >= if AsksLogin(input) then 3 else 2
  }

  /** The outcome of the whole exchange: how much of the stream is consumed, or what went wrong. */
  function Outcome(input: seq<byte>, link: Link, host: seq<byte>, auth: Option<Credentials>): Result<nat, SocksError> {
    match Admitted(input, link, auth.Some?)
    case Err(e) => Err(e)
    case Ok(at) =>
      if |host| > 255 then Err(BadRequest) else if !Requests(input, link, host) then Err(Io) else Replied(input, at)
  }

  /** All the client says before the request, given what it hears. */
  function SaidFirst(input: seq<byte>, link: Link, auth: Option<Credentials>): seq<byte> {
    if link.writable < 1 then []
    else Greeting(auth.Some?) + if AsksLogin(input) && auth.Some? && link.writable >= 2 then Login(auth.value) else []
  }

  /** All it says. */
  function Said(input: seq<byte>, link: Link, host: seq<byte>, port: u16, auth: Option<Credentials>): seq<byte> {
    SaidFirst(input, link, auth)
    + if Admitted(input, link, auth.Some?).Ok? && Requests(input, link, host) then Request(host, port) else []
  }

  // ----- the client -----

  /** A connection to a proxy: what it will answer, how much of that has been read, what was sent and
      how many writes that took. */
  class Stream {
    const input: seq<byte>
    const link: Link
    var pos: nat
    var writes: nat
    var sent: seq<byte>

    predicate Valid()
      reads this
    {
      pos <= |input|
    }

    predicate Untouched()
      reads this
    {
      pos == 0 && writes == 0 && sent == []
    }

    constructor (input: seq<byte>, link: Link)
      ensures Valid() && this.input == input && this.link == link && Untouched()
    {
      this.input, this.link, pos, writes, sent := input, link, 0, 0, [];
    }

    method Write(s: seq<byte>) returns (ok: bool)
      modifies this`sent, this`writes
      ensures ok <==> old(writes) < link.writable
      ensures ok ==> sent == old(sent) + s && writes == old(writes) + 1
      ensures !ok ==> sent == old(sent) && writes == old(writes)
    {
      ok := writes < link.writable;
      if ok {
        sent, writes := sent + s, writes + 1;
      }
    }

    /** Exactly n octets, or none; what there is of fewer is lost. */
    method ReadExact(n: nat) returns (s: Option<seq<byte>>)
      requires Valid()
      modifies this`pos
      ensures Valid()
      ensures old(pos) + n <= |input| ==> s == Some(input[old(pos)..old(pos) + n]) && pos == old(pos) + n
      ensures old(pos) + n > |input| ==> s == None
    {
      if pos + n <= |input| {
        s := Some(input[pos..pos + n]);
        pos := pos + n;
      } else {
        pos := |input|;
        s := None;
      }
    }
  }

  /** Opens a tunnel to host and port. On success the stream stands at the first octet of payload. */
  method Connect(s: Stream, host: seq<byte>, port: u16, auth: Option<Credentials>) returns (r: Result<(), SocksError>)
    requires s.Valid() && s.Untouched()
    modifies s
    ensures s.Valid() && s.sent == Said(s.input, s.link, host, port, auth)
    ensures match Outcome(s.input, s.link, host, auth)
            case Ok(consumed) => r == Ok(()) && s.pos == consumed
            case Err(e) => r == Err(e)
  {
    var admitted := Admit(s, auth);
    if admitted.Err? {
      return Err(admitted.error);
    }
    if |host| > 255 {
      return Err(BadRequest);
    }
    var ok := s.Write([5, 1, 0, 3, LowOctet(|host|)] + host + Be16Bytes(port));
    if !ok {
      return Err(Io);
    }
    r := AwaitReply(s);
  }

  method Admit(s: Stream, auth: Option<Credentials>) returns (r: Result<(), SocksError>)
    requires s.Valid() && s.Untouched()
    modifies s
    ensures s.Valid() && s.sent == SaidFirst(s.input, s.link, auth)
    ensures match Admitted(s.input, s.link, auth.Some?)
            case Ok(at) => r == Ok(()) && s.pos == at && s.writes == if AsksLogin(s.input) then 2 else 1
            case Err(e) => r == Err(e)
  {
    var chosen := Greet(s, auth.Some?);
    if chosen.Err? {
      return Err(chosen.error);
    }
    match chosen.value {
      case 0 =>
        return Ok(());
      case 2 =>
        if auth.None? {
          return Err(AuthRejected);
        }
        r := LogIn(s, auth.value);
      case 255 =>
        return Err(if auth.Some? then NoLoginAccepted else AuthRejected);
      case _ =>
        return Err(AuthRejected);
    }
  }

  method Greet(s: Stream, login: bool) returns (r: Result<byte, SocksError>)
    requires s.Valid() && s.Untouched()
    modifies s
    ensures s.Valid() && r == Chosen(s.input, s.link)
    ensures s.sent == if s.link.writable < 1 then [] else Greeting(login)
    ensures r.Ok? ==> s.pos == 2 && s.writes == 1
  {
    var methods: seq<byte> := if login then [0, 2] else [0];
    var ok := s.Write([5, LowOctet(|methods|)] + methods);
    if !ok {
      return Err(Io);
    }
    var resp := s.ReadExact(2);
    if resp.None? {
      return Err(if s.link.end == Closed then WrongProtocol(HungUp) else Io);
    }
    if resp.value[0] != 5 {
      return Err(WrongProtocol(if resp.value[0] == LETTER_H then Http else Octet(resp.value[0])));
    }
    return Ok(resp.value[1]);
  }

  method LogIn(s: Stream, c: Credentials) returns (r: Result<(), SocksError>)
    requires s.Valid()
    modifies s
    ensures s.Valid()
    ensures s.sent == old(s.sent) + if old(s.writes) < s.link.writable then Login(c) else []
    ensures if old(s.writes) >= s.link.writable || old(s.pos) + 2 > |s.input| then r == Err(Io)
            else if s.input[old(s.pos) + 1] != 0 then r == Err(AuthRejected)
            else r == Ok(()) && s.pos == old(s.pos) + 2 && s.writes == old(s.writes) + 1
  {
    var ok := s.Write([1, LowOctet(|c.username|)] + c.username + ([LowOctet(|c.password|)] + c.password));
    if !ok {
      return Err(Io);
    }
    var ar := s.ReadExact(2);
    if ar.None? {
      return Err(Io);
    }
    r := if ar.value[1] != 0 then Err(AuthRejected) else Ok(());
  }

  method AwaitReply(s: Stream) returns (r: Result<(), SocksError>)
    requires s.Valid()
    modifies s`pos
    ensures s.Valid()
    ensures match Replied(s.input, old(s.pos))
            case Ok(end) => r == Ok(()) && s.pos == end
            case Err(e) => r == Err(e)
  {
    var head := s.ReadExact(4);
    if head.None? {
      return Err(Io);
    }
    if head.value[1] != 0 {
      return Err(ConnectRejected(head.value[1]));
    }
    var skip: nat;
    match head.value[3] {
      case 1 =>
        skip := 4 + 2;
      case 3 =>
        var len := s.ReadExact(1);
        if len.None? {
          return Err(Io);
        }
        skip := len.value[0] as nat + 2;
      case 4 =>
        skip := 16 + 2;
      case _ =>
        return Err(BadRequest);
    }
    var bound := s.ReadExact(skip);
    return if bound.None? then Err(Io) else Ok(());
  }

  // ----- the grammar of the standard -----

  /** What a client's side of the exchange means. */
  datatype Dialogue = Dialogue(methods: seq<byte>, login: Option<Credentials>, host: seq<byte>, port: u16)

  /** A length octet and that many octets, and the place after. */
  function Counted(s: seq<byte>, at: nat): Option<(seq<byte>, nat)> {
    if at >= |s| || at + 1 + s[at] as nat > |s| then None
    else
      var end := at + 1 + s[at] as nat;
      Some((s[at + 1..end], end))
  }

  function DecodeLogin(s: seq<byte>, at: nat): Option<(Credentials, nat)> {
    if at >= |s| || s[at] != 1 then None
    else
      match Counted(s, at + 1)
      case None => None
      case Some((username, next)) =>
        match Counted(s, next)
        case None => None
        case Some((password, end)) =>
          if username == [] || password == [] then None else Some((Credentials(username, password), end))
  }

  function DecodeRequest(s: seq<byte>, at: nat): Option<(seq<byte>, u16)> {
    if at + 4 > |s| || s[at..at + 4] != [5, 1, 0, 3] then None
    else
      match Counted(s, at + 4)
      case None => None
      case Some((host, next)) => if next + 2 != |s| then None else Some((host, Be16(s[next], s[next + 1])))
  }

  /** What a server that chose a method understands. */
  function Decode(s: seq<byte>, login: bool): Option<Dialogue> {
    if |s| < 1 || s[0] != 5 then None
    else
      match Counted(s, 1)
      case None => None
      case Some((methods, at)) =>
        if !login then
          match DecodeRequest(s, at)
          case None => None
          case Some((host, port)) => Some(Dialogue(methods, None, host, port))
        else
          match DecodeLogin(s, at)
          case None => None
          case Some((c, next)) =>
            match DecodeRequest(s, next)
            case None => None
            case Some((host, port)) => Some(Dialogue(methods, Some(c), host, port))
  }

  lemma CountedBack(s: seq<byte>, at: nat, x: seq<byte>)
    requires |x| <= 255 && StandsAt(s, at, [LowOctet(|x|)] + x)
    ensures Counted(s, at) == Some((x, at + 1 + |x|))
  {
    StandsAlone(s, at, [LowOctet(|x|)] + x);
    StandsSplit(s, at, [LowOctet(|x|)], x);
  }

  lemma RequestBack(s: seq<byte>, at: nat, host: seq<byte>, port: u16)
    requires |host| <= 255 && at <= |s| && s[at..] == Request(host, port)
    ensures DecodeRequest(s, at) == Some((host, port))
  {
    var front: seq<byte> := [5, 1, 0, 3];
    var counted := [LowOctet(|host|)] + host;
    assert Request(host, port) == front + (counted + Be16Bytes(port));
    assert s[at..at + |Request(host, port)|] == s[at..];
    StandsSplit(s, at, front, counted + Be16Bytes(port));
    StandsSplit(s, at + 4, counted, Be16Bytes(port));
    CountedBack(s, at + 4, host);
    var next := at + 5 + |host|;
    assert s[next..next + 2] == Be16Bytes(port);
    assert s[next] == s[next..next + 2][0] && s[next + 1] == s[next..next + 2][1];
  }

  lemma LoginBack(s: seq<byte>, at: nat, c: Credentials)
    requires LoginFits(c) && StandsAt(s, at, Login(c))
    ensures DecodeLogin(s, at) == Some((c, at + |Login(c)|))
  {
    var user, pass := [LowOctet(|c.username|)] + c.username, [LowOctet(|c.password|)] + c.password;
    assert Login(c) == [1] + (user + pass);
    StandsSplit(s, at, [1], user + pass);
    StandsAlone(s, at, [1]);
    StandsSplit(s, at + 1, user, pass);
    CountedBack(s, at + 1, c.username);
    CountedBack(s, at + 1 + |user|, c.password);
  }

  /** The login's lengths are among the 1 to 255 of section 2 of RFC 1929. */
  predicate LoginFits(c: Credentials) {
    1 <= |c.username| <= 255 && 1 <= |c.password| <= 255
  }

  /** A login whose lengths do not fit is not read back as itself: the lengths it declares are cut, or
      are none. */
  lemma LoginLost(s: seq<byte>, at: nat, c: Credentials)
    requires !LoginFits(c) && StandsAt(s, at, Login(c))
    ensures DecodeLogin(s, at).Some? ==> DecodeLogin(s, at).value.0 != c
  {
  }

  /** Success means the dialogue the caller asked for. What was sent decodes, under the grammar of the
      two RFCs, to the methods offered, that host and that port, and to that login if the server asked
      for one, exactly when the login's lengths are 1 to 255. */
  lemma SaidDecodes(input: seq<byte>, link: Link, host: seq<byte>, port: u16, auth: Option<Credentials>)
    requires Outcome(input, link, host, auth).Ok?
    ensures var methods: seq<byte> := if auth.Some? then [0, 2] else [0];
            var login := if AsksLogin(input) then auth else None;
            Decode(Said(input, link, host, port, auth), AsksLogin(input)) == Some(Dialogue(methods, login, host, port))
            <==> (login.Some? ==> LoginFits(login.value))
  {
    var methods: seq<byte> := if auth.Some? then [0, 2] else [0];
    var said := Said(input, link, host, port, auth);
    assert Greeting(auth.Some?) == [5] + ([LowOctet(|methods|)] + methods);
    if AsksLogin(input) {
      LoginDialogue(said, methods, auth.value, host, port);
    } else {
      PlainDialogue(said, methods, host, port);
    }
  }

  lemma PlainDialogue(said: seq<byte>, methods: seq<byte>, host: seq<byte>, port: u16)
    requires |methods| <= 255 && |host| <= 255
    requires said == [5] + ([LowOctet(|methods|)] + methods) + [] + Request(host, port)
    ensures Decode(said, false) == Some(Dialogue(methods, None, host, port))
  {
    SaidParts(said, methods, [], Request(host, port));
    RequestBack(said, 2 + |methods|, host, port);
  }

  lemma LoginDialogue(said: seq<byte>, methods: seq<byte>, c: Credentials, host: seq<byte>, port: u16)
    requires |methods| <= 255 && |host| <= 255
    requires said == [5] + ([LowOctet(|methods|)] + methods) + Login(c) + Request(host, port)
    ensures Decode(said, true) == Some(Dialogue(methods, Some(c), host, port)) <==> LoginFits(c)
  {
    SaidParts(said, methods, Login(c), Request(host, port));
    if LoginFits(c) {
      FittingDialogue(said, methods, 2 + |methods|, c, host, port);
    } else {
      LoginLost(said, 2 + |methods|, c);
      LoginFirst(said, methods, 2 + |methods|);
    }
  }

  lemma FittingDialogue(s: seq<byte>, methods: seq<byte>, at: nat, c: Credentials, host: seq<byte>, port: u16)
    requires |s| >= 1 && s[0] == 5 && Counted(s, 1) == Some((methods, at))
    requires LoginFits(c) && |host| <= 255 && StandsAt(s, at, Login(c))
    requires at + |Login(c)| <= |s| && s[at + |Login(c)|..] == Request(host, port)
    ensures Decode(s, true) == Some(Dialogue(methods, Some(c), host, port))
  {
    LoginBack(s, at, c);
    RequestBack(s, at + |Login(c)|, host, port);
    LoginThenRequest(s, methods, at, c, at + |Login(c)|, host, port);
  }

  lemma LoginThenRequest(s: seq<byte>, methods: seq<byte>, at: nat, c: Credentials, next: nat, host: seq<byte>,
                         port: u16)
    requires |s| >= 1 && s[0] == 5 && Counted(s, 1) == Some((methods, at))
    requires DecodeLogin(s, at) == Some((c, next)) && DecodeRequest(s, next) == Some((host, port))
    ensures Decode(s, true) == Some(Dialogue(methods, Some(c), host, port))
  {
  }

  lemma LoginFirst(s: seq<byte>, methods: seq<byte>, at: nat)
    requires |s| >= 1 && s[0] == 5 && Counted(s, 1) == Some((methods, at))
    ensures Decode(s, true).Some? ==>
              DecodeLogin(s, at).Some? && Decode(s, true).value.login == Some(DecodeLogin(s, at).value.0)
  {
  }

  lemma SaidParts(said: seq<byte>, methods: seq<byte>, login: seq<byte>, request: seq<byte>)
    requires |methods| <= 255 && said == [5] + ([LowOctet(|methods|)] + methods) + login + request
    ensures said[0] == 5 && Counted(said, 1) == Some((methods, 2 + |methods|))
    ensures StandsAt(said, 2 + |methods|, login)
    ensures 2 + |methods| + |login| <= |said| && said[2 + |methods| + |login|..] == request
  {
    var greeting := [LowOctet(|methods|)] + methods;
    assert said == [5] + (greeting + (login + request));
    assert said[0..|said|] == said;
    StandsSplit(said, 0, [5], greeting + (login + request));
    StandsSplit(said, 1, greeting, login + request);
    CountedBack(said, 1, methods);
    StandsSplit(said, 2 + |methods|, login, request);
  }

  /** A user name of 256 octets is announced as none at all, and the tunnel opens all the same. */
  lemma SomeLoginIsCut(host: seq<byte>, port: u16) returns (input: seq<byte>, auth: Option<Credentials>)
    requires |host| <= 255
    ensures Outcome(input, Link(Closed, 3), host, auth).Ok?
    ensures Decode(Said(input, Link(Closed, 3), host, port, auth), true) != Some(Dialogue([0, 2], auth, host, port))
  {
    input := [5, 2, 1, 0] + [5, 0, 0, 1, 127, 0, 0, 1, 31, 144];
    auth := Some(Credentials(seq(256, _ => 65), [65]));
    assert Admitted(input, Link(Closed, 3), true) == Ok(4);
    SaidDecodes(input, Link(Closed, 3), host, port, auth);
  }

  // ----- the server's side -----

  datatype Address = V4(octets: seq<byte>) | Name(name: seq<byte>) | V6(octets: seq<byte>)

  predicate AddressFits(a: Address) {
    match a
    case V4(o) => |o| == 4
    case Name(n) => |n| <= 255
    case V6(o) => |o| == 16
  }

  function EncodeAddress(a: Address): seq<byte> {
    match a
    case V4(o) => [1] + o
    case Name(n) => [3, LowOctet(|n|)] + n
    case V6(o) => [4] + o
  }

  /** A server that grants the request: the method it chose, a login accepted if it asked for one, and
      a reply with any bound address and port. */
  function Grant(login: bool, bound: Address, port: seq<byte>): seq<byte> {
    (if login then [5, 2, 1, 0] else [5, 0]) + ([5, 0, 0] + EncodeAddress(bound) + port)
  }

  /** Every server that grants the request is understood, whatever its bound address and whatever it
      sends next: exactly its replies are consumed, so the next octet is payload. */
  lemma GrantIsConsumed(login: bool, bound: Address, port: seq<byte>, payload: seq<byte>, link: Link,
                        host: seq<byte>, auth: Option<Credentials>)
    requires AddressFits(bound) && |port| == 2 && |host| <= 255 && (login ==> auth.Some?) && link.writable >= 3
    ensures Outcome(Grant(login, bound, port) + payload, link, host, auth) == Ok(|Grant(login, bound, port)|)
  {
    var input := Grant(login, bound, port) + payload;
    var at := if login then 4 else 2;
    var reply := [5, 0, 0] + EncodeAddress(bound) + port;
    assert input == (if login then [5, 2, 1, 0] else [5, 0]) + (reply + payload);
    ChoiceIsConsumed(input, link, login, reply + payload, auth);
    ReplyIsConsumed(input, at, bound, port, payload);
  }

  lemma ChoiceIsConsumed(input: seq<byte>, link: Link, login: bool, rest: seq<byte>, auth: Option<Credentials>)
    requires input == (if login then [5, 2, 1, 0] else [5, 0]) + rest && (login ==> auth.Some?) && link.writable >= 3
    ensures var at := if login then 4 else 2;
            Admitted(input, link, auth.Some?) == Ok(at) && input[at..] == rest
  {
    assert input[0] == 5 && input[1] == if login then 2 else 0;
  }

  lemma ReplyIsConsumed(input: seq<byte>, at: nat, bound: Address, port: seq<byte>, payload: seq<byte>)
    requires AddressFits(bound) && |port| == 2 && at <= |input|
    requires input[at..] == [5, 0, 0] + EncodeAddress(bound) + port + payload
    ensures Replied(input, at) == Ok(at + 5 + |EncodeAddress(bound)|)
  {
    var rest := input[at..];
    var address := EncodeAddress(bound);
    assert |input| == at + |rest| && |rest| == 3 + |address| + 2 + |payload|;
    assert input[at + 1] == rest[1] == 0;
    assert input[at + 3] == rest[3] == address[0];
    if bound.Name? {
      assert input[at + 4] == rest[4] == address[1];
    }
  }

  /** And nothing else is a success: the replies consumed are a method choice, a login accepted if one
      was asked for, and a reply that grants, of one of the three address types. */
  lemma OnlyGrantsSucceed(input: seq<byte>, link: Link, host: seq<byte>, auth: Option<Credentials>)
    requires Outcome(input, link, host, auth).Ok?
    ensures var consumed := Outcome(input, link, host, auth).value;
            var at := if AsksLogin(input) then 4 else 2;
            && |host| <= 255 && consumed <= |input| && at + 4 <= consumed
            && input[0] == 5 && (input[1] == 0 || (input[1] == 2 && auth.Some? && input[3] == 0))
            && input[at + 1] == 0
            && exists bound: Address :: AddressFits(bound) && input[at + 3..consumed - 2] == EncodeAddress(bound)
  {
    AdmittedMeans(input, link, auth.Some?);
    RepliedMeans(input, Admitted(input, link, auth.Some?).value);
  }

  lemma AdmittedMeans(input: seq<byte>, link: Link, login: bool)
    requires Admitted(input, link, login).Ok?
    ensures Admitted(input, link, login).value == if AsksLogin(input) then 4 else 2
    ensures |input| >= 2 && input[0] == 5
    ensures input[1] == 0 || (input[1] == 2 && login && |input| >= 4 && input[3] == 0)
  {
  }

  lemma RepliedMeans(input: seq<byte>, at: nat)
    requires Replied(input, at).Ok?
    ensures var end := Replied(input, at).value;
            && at + 5 <= end <= |input| && input[at + 1] == 0
            && exists bound: Address :: AddressFits(bound) && input[at + 3..end - 2] == EncodeAddress(bound)
  {
    var end := Replied(input, at).value;
    var body := input[at + 3..end - 2];
    assert body[0] == input[at + 3];
    assert body[0] == 3 ==> body[1] == input[at + 4];
    BoundIs(body);
  }

  lemma BoundIs(body: seq<byte>)
    requires |body| >= 2
    requires if body[0] == 1 then |body| == 5 else if body[0] == 3 then |body| == 2 + body[1] as nat
             else body[0] == 4 && |body| == 17
    ensures exists bound: Address :: AddressFits(bound) && body == EncodeAddress(bound)
  {
    if body[0] == 1 {
      assert body == EncodeAddress(V4(body[1..]));
    } else if body[0] == 3 {
      assert body == EncodeAddress(Name(body[2..]));
    } else {
      assert body == EncodeAddress(V6(body[1..]));
    }
  }
}
