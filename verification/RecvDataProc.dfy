/**
 The receiving half of RecvDataProc.cpp over its real client table: counting frames, obeying commands, relaying
 pictures, building frames.  What it asks of the socket server (`SendData`, `EnableRead`, `close`) is returned.
 */
module RecvDataProc {
  import opened FrameParser
  import FrameRestruct
  import opened MemPool
  import opened Prelude
  import opened Sessions

  class ClientInfo {
    const socket: int
    const restructurer: FrameRestruct.Restructurer
    var clientType: int
    var cameraId: int
    var frameCount: int
    var enableRead: bool

    constructor (sock: int)
      ensures AsClient() == NEWCOMER && socket == sock
      ensures restructurer.Valid() && restructurer.Carry() == []
      ensures fresh(restructurer) && fresh(restructurer.exitBuffer)
    {
      socket, clientType, cameraId, frameCount, enableRead := sock, -1, 0, 0, true;
      restructurer := new FrameRestruct.Restructurer();
    }

    /** The client as a value. */
    ghost function AsClient(): Client
      reads this
    {
      Client(clientType, cameraId, frameCount, enableRead)
    }
  }

  /** A call of `SendData`. */
  datatype Sending = Sending(sock: int, data: seq<byte>, notify: bool)

  /** The sendings offer `data` to each of these clients once, in the order of socket ids. */
  ghost predicate Offers(sendings: seq<Sending>, ks: set<int>, data: seq<byte>) {
    && (forall i, j :: 0 <= i < j < |sendings| ==> sendings[i].sock < sendings[j].sock)
    && (forall i :: 0 <= i < |sendings| ==>
      sendings[i].sock in ks && sendings[i] == Sending(sendings[i].sock, data, true))
    && (forall k :: k in ks ==> exists i :: 0 <= i < |sendings| && sendings[i].sock == k)
  }

  lemma OffersNobody(data: seq<byte>)
    ensures Offers([], {}, data)
  {
  }

  lemma OffersSnoc(sendings: seq<Sending>, ks: set<int>, k: int, data: seq<byte>)
    requires Offers(sendings, ks, data) && forall j :: j in ks ==> j < k
    ensures Offers(sendings + [Sending(k, data, true)], ks + {k}, data)
  {
    var more := sendings + [Sending(k, data, true)];
    forall j | j in ks + {k} ensures exists i :: 0 <= i < |more| && more[i].sock == j {
      if j == k {
        assert more[|sendings|].sock == k;
      } else {
        var i :| 0 <= i < |sendings| && sendings[i].sock == j;
        assert more[i].sock == j;
      }
    }
  }

  /** Who a picture is for. */
  ghost function Watchers(clients: map<int, Client>, sender: int, camera: int): set<int> {
    set k | k in clients && Watches(clients, k, sender, camera)
  }

  lemma {:induction false} LeastOf(ks: set<int>) returns (k: int)
    requires ks != {}
    ensures k in ks && forall j :: j in ks ==> k <= j
    decreases |ks|
  {
    assert (forall j :: j !in ks) ==> ks == {};
    var any: int :| any in ks;
    var others := ks - {any};
    assert forall j :: j in ks ==> j == any || j in others;
    if others == {} {
      k := any;
    } else {
      var other := LeastOf(others);
      k := if other < any then other else any;
    }
  }

  class DataProc {
    var clientMap: map<int, ClientInfo>
    /** `RecvFrameMP`, the blocks that frames are kept in until they are processed. */
    const pool: Pool

    /** Each client is registered under its own socket, so no two entries are one object. */
    ghost predicate Valid()
      reads this, set k | k in clientMap :: clientMap[k]
    {
      forall k :: k in clientMap ==> clientMap[k].socket == k
    }

    ghost function Clients(): map<int, Client>
      reads this, set k | k in clientMap :: clientMap[k]
    {
      map k | k in clientMap :: clientMap[k].AsClient()
    }

    /** Only one client was changed. */
    twostate lemma OneChanged(sock: int)
      requires old(Valid()) && clientMap == old(clientMap) && sock in clientMap
      requires forall k :: k in clientMap && k != sock ==> clientMap[k].AsClient() == old(clientMap[k].AsClient())
      ensures Valid() && Clients() == old(Clients())[sock := clientMap[sock].AsClient()]
    {
      var after := old(Clients())[sock := clientMap[sock].AsClient()];
      assert Clients().Keys == clientMap.Keys == after.Keys;
      assert forall k :: k in clientMap ==> Clients()[k] == after[k];
    }

    constructor ()
      ensures Valid() && Clients() == map[]
      ensures pool.Valid() && pool.blockSize == BLOCK_SIZE && pool.held == {}
    {
      clientMap := map[];
      pool := new Pool();
      new;
      RelayPoolsFit();
      var created := pool.CreatPool(BLOCK_SIZE, RECV_BLOCKS, GROW_STEP);
    }

    /** `insert`: a client that is registered already stays. */
    method AddClient(sock: int)
      requires Valid()
      modifies this
      ensures Valid()
      ensures Clients() == if sock in old(Clients()) then old(Clients()) else old(Clients())[sock := NEWCOMER]
    {
      var newClient := new ClientInfo(sock);
      if sock !in clientMap {
        clientMap := clientMap[sock := newClient];
      }
    }

    method QuitClient(sock: int)
      requires Valid()
      modifies this
      ensures Valid() && Clients() == old(Clients()) - {sock} && clientMap == old(clientMap) - {sock}
    {
      if sock in clientMap {
        clientMap := clientMap - {sock};
      }
    }

    /** Reading is switched off, once, when the count passes the high mark. */
    method IncreaseFrameCount(sock: int, count: int) returns (n: int, reading: Option<bool>)
      requires Valid()
      modifies if sock in clientMap then {clientMap[sock]} else {}
      ensures Valid() && clientMap == old(clientMap)
      ensures sock !in clientMap ==> n == 0 && reading.None? && Clients() == old(Clients())
      ensures sock in clientMap ==>
                var c := old(Clients())[sock];
                && Clients() == old(Clients())[sock := Increase(c, count)]
                && n == c.frameCount + count
                && reading == if c.reading && n > HIGH then Some(false) else None
    {
      if sock !in clientMap {
        return 0, None;
      }
      var client := clientMap[sock];
      client.frameCount := client.frameCount + count;
      n, reading := client.frameCount, None;
      if n > HIGH && client.enableRead {
        reading := Some(false);
        client.enableRead := false;
      }
      OneChanged(sock);
    }

    /** Reading is switched on again, once, when the count falls below the low mark. */
    method DecreaseFrameCount(sock: int) returns (n: int, reading: Option<bool>)
      requires Valid()
      modifies if sock in clientMap then {clientMap[sock]} else {}
      ensures Valid() && clientMap == old(clientMap)
      ensures sock !in clientMap ==> n == 0 && reading.None? && Clients() == old(Clients())
      ensures sock in clientMap ==>
                var c := old(Clients())[sock];
                && Clients() == old(Clients())[sock := Decrease(c)]
                && n == c.frameCount - 1
                && reading == if !c.reading && n < LOW then Some(true) else None
    {
      if sock !in clientMap {
        return 0, None;
      }
      var client := clientMap[sock];
      client.frameCount := client.frameCount - 1;
      n, reading := client.frameCount, None;
      if n < LOW && !client.enableRead {
        reading := Some(true);
        client.enableRead := true;
      }
      OneChanged(sock);
    }

    /** Parses a chunk behind the client's carry and counts the frames that were queued. */
    method AddRecvData(sock: int, buff: array<byte>, len: nat)
      returns (ok: bool, tasks: seq<FrameRestruct.FrameTask>, reading: Option<bool>)
      requires Valid() && len <= buff.Length
      requires sock in clientMap ==>
                 && clientMap[sock].restructurer.Valid() && buff != clientMap[sock].restructurer.exitBuffer
                 && clientMap[sock].restructurer.Supplied(pool, buff)
      modifies if sock in clientMap
               then {clientMap[sock], clientMap[sock].restructurer, clientMap[sock].restructurer.exitBuffer} else {}
      modifies FrameRestruct.FreeBlocks(pool)
      modifies pool`growCount, pool`blockTotalCount, pool`held, pool.unused, pool.unused.queue
      ensures Valid() && clientMap == old(clientMap)
      ensures ok <==> sock in clientMap
      ensures !ok ==> tasks == [] && reading.None? && Clients() == old(Clients())
      ensures ok ==>
                var c, r := old(Clients())[sock], clientMap[sock].restructurer;
                var p := Parse(old(clientMap[sock].restructurer.Carry() + buff[..len]));
                && r.Valid() && r.Carry() == p.rest
                && |tasks| <= |p.frames| && FrameRestruct.AreTasks(tasks, sock, p.frames[..|tasks|])
                && r.Drawn(pool, buff, tasks, old(pool.held), |p.frames|)
                && Clients() == old(Clients())[sock := Increase(c, |tasks|)]
                && reading == if c.reading && c.frameCount + |tasks| > HIGH then Some(false) else None
    {
      hide FrameRestruct.Restructurer.Supplied, FrameRestruct.Restructurer.Drawn, FrameRestruct.Restructurer.Valid;
      hide FrameRestruct.FreeBlocks, Pool.Valid, Parse;
      if sock !in clientMap {
        return false, [], None;
      }
      var count, n;
      count, tasks := clientMap[sock].restructurer.RestructFrame(sock, buff, len, pool);
      n, reading := IncreaseFrameCount(sock, count);
      ok := true;
    }

    /** A login is refused on a bad type or from a client that has quit. */
    method NewClient(sock: int, frame: array<byte>) returns (ok: bool, sendings: seq<Sending>)
      requires Valid() && frame.Length >= 7
      modifies if sock in clientMap then {clientMap[sock]} else {}
      ensures Valid() && clientMap == old(clientMap)
      ensures ok <==> LoginOf(frame[..]).Login? && sock in clientMap
      ensures Clients() == if ok then Obey(old(Clients()), sock, LoginOf(frame[..])) else old(Clients())
      ensures sendings == if ok then [Sending(sock, ACK, false)] else []
    {
      if frame[4] != 0 && frame[4] != 1 {
        return false, [];
      }
      var clientType := frame[4] as int;
      if sock !in clientMap {
        return false, [];
      }
      clientMap[sock].clientType := clientType;
      clientMap[sock].cameraId := frame[5] as int * 256 + frame[6] as int;
      OneChanged(sock);
      ok, sendings := true, [Sending(sock, [0x7E, 0x00, 0x05, 0x90, 0xA5], false)];
    }

    method ResetCameraId(sock: int, frame: array<byte>)
      requires Valid() && frame.Length >= 7
      modifies if sock in clientMap then {clientMap[sock]} else {}
      ensures Valid() && clientMap == old(clientMap)
      ensures Clients() == Obey(old(Clients()), sock, ResetOf(frame[..]))
    {
      if sock in clientMap {
        clientMap[sock].cameraId := frame[4] as int * 256 + frame[5] as int;
        OneChanged(sock);
      }
    }

    /** Goes through the table in the order of socket ids and offers the picture to every watcher. */
    method PicDataRecv(sock: int, frame: array<byte>, len: nat) returns (sendings: seq<Sending>)
      requires Valid() && len <= frame.Length
      ensures sock !in clientMap ==> sendings == []
      ensures sock in clientMap ==> Offers(sendings, Watchers(Clients(), sock, Clients()[sock].camera), frame[..len])
    {
      sendings := [];
      if sock !in clientMap {
        return;
      }
      hide Offers;
      var camera := clientMap[sock].cameraId;
      ghost var watchers := Watchers(Clients(), sock, camera);
      var rest := clientMap.Keys;
      assert watchers - rest == {};
      OffersNobody(frame[..len]);
      while rest != {}
        invariant rest <= clientMap.Keys
        invariant forall k, j :: k in clientMap && k !in rest && j in rest ==> k < j
        invariant Offers(sendings, watchers - rest, frame[..len])
        decreases rest
      {
        ghost var least := LeastOf(rest);
        var k :| k in rest && forall j :: j in rest ==> k <= j;
        if k != sock && clientMap[k].clientType == PC && clientMap[k].cameraId == camera {
          OffersSnoc(sendings, watchers - rest, k, frame[..len]);
          sendings := sendings + [Sending(k, frame[..len], true)];
          assert watchers - (rest - {k}) == watchers - rest + {k};
        } else {
          assert watchers - (rest - {k}) == watchers - rest;
        }
        rest := rest - {k};
      }
      assert watchers - rest == watchers;
    }

    /** The command of a received frame; the sender is closed on a bad login. */
    method CommandProc(sock: int, frame: array<byte>, len: nat) returns (sendings: seq<Sending>, closed: bool)
      requires Valid() && frame.Length >= 7 && len <= frame.Length
      modifies this, if sock in clientMap then {clientMap[sock]} else {}
      ensures Valid() && Clients() == Obey(old(Clients()), sock, Decode(frame[..]))
      ensures Answered(old(Clients()), sock, frame[..], len, sendings, closed)
      ensures clientMap == old(clientMap) || clientMap == old(clientMap) - {sock}
    {
      sendings, closed := [], false;
      var code := frame[3];
      if code == 0x00 {
        var ok;
        ok, sendings := NewClient(sock, frame);
        if !ok {
          QuitClient(sock);
          closed := true;
        }
      } else if code == 0x01 {
        ResetCameraId(sock, frame);
      } else if code == 0x10 {
        sendings := PicDataRecv(sock, frame, len);
      }
    }

    /** `CFrameProcTask::ProcessTask`: the command is obeyed, the frame's block goes back, the client is discharged. */
    method ProcessTask(sock: int, frame: array<byte>, len: nat)
      returns (sendings: seq<Sending>, closed: bool, reading: Option<bool>)
      requires Valid() && pool.Valid() && frame in pool.held && frame.Length == BLOCK_SIZE && len <= BLOCK_SIZE
      modifies this, if sock in clientMap then {clientMap[sock]} else {}
      modifies pool`held, pool.unused, pool.unused.queue
      ensures Valid() && Clients() == Discharged(Obey(old(Clients()), sock, Decode(frame[..])), sock)
      ensures pool.Valid() && pool.held == old(pool.held) - {frame}
      ensures Answered(old(Clients()), sock, frame[..], len, sendings, closed)
      ensures var cs := Obey(old(Clients()), sock, Decode(frame[..]));
              reading == if sock in cs && !cs[sock].reading && cs[sock].frameCount - 1 < LOW then Some(true) else None
    {
      hide Pool.Valid, Offers;
      sendings, closed := CommandProc(sock, frame, len);
      var freed := pool.FreeBlock(frame);
      var n;
      n, reading := DecreaseFrameCount(sock);
    }
  }

  /** The client table after one frame of `sock` was counted off. */
  function Discharged(clients: map<int, Client>, sock: int): map<int, Client> {
    if sock in clients then clients[sock := Decrease(clients[sock])] else clients
  }

  /** What the command in a block asks of the socket server. */
  ghost predicate Answered(
    clients: map<int, Client>, sock: int, block: seq<byte>, len: nat, sendings: seq<Sending>, closed: bool)
    requires |block| >= 7 && len <= |block|
  {
    var cmd := Decode(block);
    && (closed <==> cmd.BadLogin? || (cmd.Login? && sock !in clients))
    && if cmd.Picture? && sock in clients
      then Offers(sendings, Watchers(clients, sock, clients[sock].camera), block[..len])
       else sendings == if cmd.Login? && sock in clients then [Sending(sock, ACK, false)] else []
  }

  /** Writes the header and the tail around whatever payload the array holds. */
  method FrameInit(frame: array<byte>, len: nat, code: byte)
    requires frame.Length >= 4 && 1 <= len <= frame.Length
    modifies frame
    ensures len >= LEN_MIN ==> frame[..len] == Print(code, old(frame[4..len - 1]))
    ensures LEN_MIN <= len <= LEN_MAX ==> IsFrame(frame[..len])
    ensures forall i :: 4 <= i < frame.Length && i != len - 1 ==> frame[i] == old(frame[i])
  {
    frame[0] := 0x7E;
    frame[1] := (len / 256 % 256) as byte;
    frame[2] := (len % 256) as byte;
    frame[3] := code;
    frame[len - 1] := 0xA5;
    if LEN_MIN <= len <= LEN_MAX {
      PrintIsFrame(code, old(frame[4..len - 1]));
    }
  }
}
