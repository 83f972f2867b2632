/** The seven control messages of the LTE pair as datagrams of text: how they are printed,
    how the receivers take them apart, and why no two of them can be confused. */
module Messages {

  const CLIENT_REGISTER := "CUSTOMVPN_CLIENT_UDP_REGISTER_2024350225:"
  const PROXY_REGISTER_ACK := "CUSTOMVPN_PROXY_UDP_REGISTER_ACK_2024350225:"
  const PROXY_LEARN_READY := "CUSTOMVPN_PROXY_LEARN_READY_2024350225:"
  const CLIENT_TUNNEL_READY := "CUSTOMVPN_CLIENT_TUNNEL_READY_2024350225:"
  const PROXY_TUNNEL_READY_ACK := "CUSTOMVPN_PROXY_TUNNEL_READY_ACK_2024350225:"
  const CLIENT_START_ACK := "CUSTOMVPN_CLIENT_START_ACK_2024350225:"
  const UDP_STOP := "CUSTOMVPN_UDP_STOP_2024350225:"

  /** A receiver gives `recvfrom` room for 511 octets; a longer datagram is cut. */
  const RECEIVE_MAX: nat := 511
  const NONCE_MAX: nat := 200

  type Nonce = string

  datatype Kind = KRegister | KRegisterAck | KLearnReady | KClientReady | KReadyAck | KStartAck | KStop

  datatype Msg =
    | Register(client: Nonce)
    | RegisterAck(client: Nonce, proxy: Nonce)
    | LearnReady(client: Nonce, proxy: Nonce)
    | ClientReady(client: Nonce)
    | ReadyAck(client: Nonce, proxy: Nonce)
    | StartAck(proxy: Nonce)
    | Stop(client: Nonce, proxy: Nonce)

  function Prefix(k: Kind): string {
    match k
    case KRegister => CLIENT_REGISTER
    case KRegisterAck => PROXY_REGISTER_ACK
    case KLearnReady => PROXY_LEARN_READY
    case KClientReady => CLIENT_TUNNEL_READY
    case KReadyAck => PROXY_TUNNEL_READY_ACK
    case KStartAck => CLIENT_START_ACK
    case KStop => UDP_STOP
  }

  function KindOf(m: Msg): Kind {
    match m
    case Register(_) => KRegister
    case RegisterAck(_, _) => KRegisterAck
    case LearnReady(_, _) => KLearnReady
    case ClientReady(_) => KClientReady
    case ReadyAck(_, _) => KReadyAck
    case StartAck(_) => KStartAck
    case Stop(_, _) => KStop
  }

  function Body(m: Msg): string {
    match m
    case Register(c) => c
    case ClientReady(c) => c
    case StartAck(p) => p
    case RegisterAck(c, p) => c + ":" + p
    case LearnReady(c, p) => c + ":" + p
    case ReadyAck(c, p) => c + ":" + p
    case Stop(c, p) => c + ":" + p
  }

  function Print(m: Msg): string {
    Prefix(KindOf(m)) + Body(m)
  }

  /** What the senders' nonces look like: not empty, without a colon, short enough. */
  predicate GoodNonce(n: Nonce) {
    n != "" && ':' !in n && |n| <= NONCE_MAX
  }

  predicate GoodMsg(m: Msg) {
    match m
    case Register(c) => GoodNonce(c)
    case ClientReady(c) => GoodNonce(c)
    case StartAck(p) => GoodNonce(p)
    case RegisterAck(c, p) => GoodNonce(c) && GoodNonce(p)
    case LearnReady(c, p) => GoodNonce(c) && GoodNonce(p)
    case ReadyAck(c, p) => GoodNonce(c) && GoodNonce(p)
    case Stop(c, p) => GoodNonce(c) && GoodNonce(p)
  }

  // ---------- The receivers' string tests ----------

  predicate StartsWith(s: string, prefix: string) {
    prefix <= s
  }

  /** The text behind the prefix. */
  function After(s: string, prefix: string): string
    requires StartsWith(s, prefix)
  {
    s[|prefix|..]
  }

  /** `recvfrom` into the receive buffer: the first 511 characters. */
  function Received(datagram: string): (r: string)
    ensures r <= datagram && |r| == if |datagram| < 511 then |datagram| else 511
  {
    if |datagram| <= RECEIVE_MAX then datagram else datagram[..RECEIVE_MAX]
  }

  // ---------- No confusion ----------

  lemma PrefixShape(k: Kind)
    ensures 30 <= |Prefix(k)| <= 44
    ensures var p := Prefix(k); (p[10], p[16], p[17]) == match k
      case KRegister => ('C', '_', 'U')
      case KRegisterAck => ('P', 'U', 'D')
      case KLearnReady => ('P', 'L', 'E')
      case KClientReady => ('C', '_', 'T')
      case KReadyAck => ('P', 'T', 'U')
      case KStartAck => ('C', '_', 'S')
      case KStop => ('U', 'O', 'P')
  {
  }

  /** A datagram, well formed or not, enters at most one branch of a receiver's dispatch. */
  lemma PrefixFree(s: string, j: Kind, k: Kind)
    requires StartsWith(s, Prefix(j)) && StartsWith(s, Prefix(k))
    ensures j == k
  {
    PrefixShape(j);
    PrefixShape(k);
    assert s[10] == Prefix(j)[10] == Prefix(k)[10];
    assert s[16] == Prefix(j)[16] == Prefix(k)[16];
    assert s[17] == Prefix(j)[17] == Prefix(k)[17];
  }

  lemma PrintDispatch(m: Msg, k: Kind)
    ensures StartsWith(Print(m), Prefix(k)) <==> k == KindOf(m)
    ensures After(Print(m), Prefix(KindOf(m))) == Body(m)
  {
    assert Print(m)[..|Prefix(KindOf(m))|] == Prefix(KindOf(m));
    if StartsWith(Print(m), Prefix(k)) {
      PrefixFree(Print(m), k, KindOf(m));
    }
  }

  /** A good message is never cut by the receive buffer. */
  lemma NotCut(m: Msg)
    requires GoodMsg(m)
    ensures Received(Print(m)) == Print(m)
  {
    PrefixShape(KindOf(m));
  }

  /** Splitting at a separator: when the first field does not contain it, there is one way. */
  lemma SplitUnique(sep: char, c: string, p: string, c': string, p': string)
    requires sep !in c && sep !in c'
    requires c + [sep] + p == c' + [sep] + p'
    ensures c == c' && p == p'
  {
    var s := c + [sep] + p;
    assert forall i | 0 <= i < |c| :: s[i] == c[i] != sep;
    assert forall i | 0 <= i < |c'| :: s[i] == c'[i] != sep;
    assert s[|c|] == sep && s[|c'|] == sep;
    assert s[..|c|] == c && s[..|c'|] == c';
    assert s[|c| + 1..] == p && s[|c'| + 1..] == p';
  }

  /** The client's REGISTER_ACK test: the body starts with its own nonce and a colon. It
      recovers exactly the printed proxy nonce, and only from an answer to this client. */
  lemma AckSplit(own: Nonce, c: Nonce, p: Nonce)
    requires ':' !in own && ':' !in c
    ensures StartsWith(c + ":" + p, own + ":") <==> own == c
    ensures own == c ==> After(c + ":" + p, own + ":") == p
  {
    var s := c + ":" + p;
    if own == c {
      assert s == (own + ":") + p;
    } else if StartsWith(s, own + ":") {
      assert s == own + ":" + s[|own| + 1..];
      SplitUnique(':', c, p, own, s[|own| + 1..]);
    }
  }

  /** No two good messages print alike. */
  lemma PrintInjective(m: Msg, m': Msg)
    requires GoodMsg(m) && GoodMsg(m')
    requires Print(m) == Print(m')
    ensures m == m'
  {
    PrintDispatch(m, KindOf(m'));
    PrintDispatch(m', KindOf(m'));
    assert Body(m) == Body(m');
    match m {
      case Register(_) =>
      case ClientReady(_) =>
      case StartAck(_) =>
      case RegisterAck(c, p) => SplitUnique(':', c, p, m'.client, m'.proxy);
      case LearnReady(c, p) => SplitUnique(':', c, p, m'.client, m'.proxy);
      case ReadyAck(c, p) => SplitUnique(':', c, p, m'.client, m'.proxy);
      case Stop(c, p) => SplitUnique(':', c, p, m'.client, m'.proxy);
    }
  }

  // ---------- The nonces the endpoints make ----------

  function Digits(n: nat): (s: string)
    ensures s != "" && forall ch :: ch in s ==> '0' <= ch <= '9'
    ensures n < 10 ==> |s| == 1
  {
    var last := ['0' + (n % 10) as char];
    if n < 10 then last else Digits(n / 10) + last
  }

  /** A number below 2^64 prints in at most twenty digits. */
  lemma DigitsLength(n: nat, k: nat)
    requires k >= 1 && n < Pow10(k)
    ensures |Digits(n)| <= k
  {
    if n >= 10 {
      DigitsLength(n / 10, k - 1);
    }
  }

  function Pow10(k: nat): nat {
    if k == 0 then 1 else 10 * Pow10(k - 1)
  }

  lemma {:induction false} DigitsInjective(m: nat, n: nat)
    requires Digits(m) == Digits(n)
    ensures m == n
  {
    var s := Digits(m);
    assert s[|s| - 1] == '0' + (m % 10) as char == '0' + (n % 10) as char;
    if m < 10 || n < 10 {
      DigitsLengthPositive(m);
      DigitsLengthPositive(n);
    } else {
      assert s[..|s| - 1] == Digits(m / 10) == Digits(n / 10);
      DigitsInjective(m / 10, n / 10);
    }
  }

  lemma DigitsLengthPositive(n: nat)
    ensures |Digits(n)| == 1 <==> n < 10
  {
  }

  /** `make_client_nonce` and `make_proxy_nonce`: role, process, and monotonic clock. */
  function MakeNonce(role: string, pid: nat, sec: nat, nsec: nat): string {
    role + Stamp(pid, sec, nsec)
  }

  function Stamp(pid: nat, sec: nat, nsec: nat): string {
    Digits(pid) + "_" + (Digits(sec) + "_" + Digits(nsec))
  }

  predicate Role(role: string) {
    role == "client_" || role == "proxy_"
  }

  /** Made nonces are good for any 64-bit process number and clock. */
  lemma MadeNonceGood(role: string, pid: nat, sec: nat, nsec: nat)
    requires Role(role)
    requires pid < Pow10(20) && sec < Pow10(20) && nsec < Pow10(20)
    ensures GoodNonce(MakeNonce(role, pid, sec, nsec))
  {
    DigitsLength(pid, 20);
    DigitsLength(sec, 20);
    DigitsLength(nsec, 20);
  }

  /** Nonces made by different processes, or at different times, differ, and a client's
      never equals a proxy's: the freshness the session argument rests on. */
  lemma MadeNonceFresh(role: string, pid: nat, sec: nat, nsec: nat, role': string, pid': nat, sec': nat, nsec': nat)
    requires Role(role) && Role(role')
    requires MakeNonce(role, pid, sec, nsec) == MakeNonce(role', pid', sec', nsec')
    ensures role == role' && pid == pid' && sec == sec' && nsec == nsec'
  {
    assert role == role' by {
      assert MakeNonce(role, pid, sec, nsec)[0] == role[0];
      assert MakeNonce(role', pid', sec', nsec')[0] == role'[0];
    }
    assert Stamp(pid, sec, nsec) == MakeNonce(role, pid, sec, nsec)[|role|..];
    assert Stamp(pid', sec', nsec') == MakeNonce(role', pid', sec', nsec')[|role'|..];
    StampInjective(pid, sec, nsec, pid', sec', nsec');
  }

  lemma StampInjective(pid: nat, sec: nat, nsec: nat, pid': nat, sec': nat, nsec': nat)
    requires Stamp(pid, sec, nsec) == Stamp(pid', sec', nsec')
    ensures pid == pid' && sec == sec' && nsec == nsec'
  {
    SplitUnique('_', Digits(pid), Digits(sec) + "_" + Digits(nsec), Digits(pid'), Digits(sec') + "_" + Digits(nsec'));
    SplitUnique('_', Digits(sec), Digits(nsec), Digits(sec'), Digits(nsec'));
    DigitsInjective(pid, pid');
    DigitsInjective(sec, sec');
    DigitsInjective(nsec, nsec');
  }
}
