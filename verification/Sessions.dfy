/** What the relay remembers of a connected client, and how commands and frame counting change it. */
module Sessions {
  import opened FrameParser

  const PHONE := 0
  const PC := 1
  const HIGH := 1024 * 300
  const LOW := 512

  /** `camera` is the client's own id for a phone and the watched one for a PC. */
  datatype Client = Client(kind: int, camera: int, frameCount: int, reading: bool)

  const NEWCOMER := Client(-1, 0, 0, true)

  function Increase(c: Client, count: int): Client {
    var n := c.frameCount + count;
    c.(frameCount := n, reading := c.reading && n <= HIGH)
  }

  function Decrease(c: Client): Client {
    var n := c.frameCount - 1;
    c.(frameCount := n, reading := c.reading || n < LOW)
  }

  /** The thresholds bracket the count: reading stops only with work pending, and goes on only below the high mark. */
  predicate Throttled(c: Client) {
    if c.reading then c.frameCount <= HIGH else c.frameCount >= LOW
  }

  lemma CountingKeepsThrottled(c: Client, count: int)
    requires Throttled(c) && count >= 0
    ensures Throttled(Increase(c, count)) && Throttled(Decrease(c))
  {
  }

  // ----- commands -----

  datatype Command = Login(kind: int, camera: int) | BadLogin | Reset(camera: int) | Picture | Unknown

  /** A login command, whatever its code byte says. */
  function LoginOf(block: seq<byte>): Command
    requires |block| >= 7
  {
    if block[4] == PHONE || block[4] == PC
      then Login(block[4] as int, block[5] as int * 256 + block[6] as int) else BadLogin
  }

  function ResetOf(block: seq<byte>): Command
    requires |block| >= 7
  {
    Reset(block[4] as int * 256 + block[5] as int)
  }

  /** The command in a received block; short frames are read past their end, into what the block held before. */
  function Decode(block: seq<byte>): Command
    requires |block| >= 7
  {
    if block[3] == 0x00 then LoginOf(block)
    else if block[3] == 0x01 then ResetOf(block)
    else if block[3] == 0x10 then Picture
    else Unknown
  }

  function Settle(c: Client, cmd: Command): Client {
    match cmd
    case Login(kind, camera) => c.(kind := kind, camera := camera)
    case Reset(camera) => c.(camera := camera)
    case _ => c
  }

  /** What a command stores first: a login stores the type before the camera, every other command all at once. */
  function FirstStored(c: Client, cmd: Command): Client {
    if cmd.Login? then c.(kind := cmd.kind) else Settle(c, cmd)
  }

  /** What it stores second. */
  function SecondStored(c: Client, cmd: Command): Client {
    if cmd.Login? then c.(camera := cmd.camera) else c
  }

  lemma SettledByBoth(c: Client, cmd: Command)
    ensures SecondStored(FirstStored(c, cmd), cmd) == Settle(c, cmd)
  {
  }

  /** The client table once a command of `sock` has stored what it stores first. */
  function Begin(clients: map<int, Client>, sock: int, cmd: Command): (after: map<int, Client>)
    ensures after.Keys <= clients.Keys <= after.Keys + {sock}
    ensures !cmd.Login? ==> after == Obey(clients, sock, cmd)
  {
    if sock !in clients then clients
    else if cmd.BadLogin? then clients - {sock}
    else clients[sock := FirstStored(clients[sock], cmd)]
  }

  /** The client table after a command of `sock`; a client that has quit cannot command anything. */
  function Obey(clients: map<int, Client>, sock: int, cmd: Command): (after: map<int, Client>)
    ensures after.Keys <= clients.Keys <= after.Keys + {sock}
  {
    if sock !in clients then clients
    else if cmd.BadLogin? then clients - {sock}
    else clients[sock := Settle(clients[sock], cmd)]
  }

  /** Who a picture of `sender`, which is set to `camera`, is for. */
  predicate Watches(clients: map<int, Client>, k: int, sender: int, camera: int)
    requires k in clients
  {
    k != sender && clients[k].kind == PC && clients[k].camera == camera
  }

  const ACK: seq<byte> := [0x7E, 0x00, 0x05, 0x90, 0xA5]

  lemma AckIsFrame()
    ensures IsFrame(ACK)
  {
    assert DeclaredLen(ACK) == 5;
  }
}
