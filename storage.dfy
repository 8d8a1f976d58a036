/**
 * `StorageManager` (backend/storage/base.py): lobby and player records kept under the
 * namespaced keys `lobby:<id>` and `player:<id>` of a string key-value backend, as JSON text.
 *
 * The backend is abstract in the source; here it is a map from key to value with a `failing`
 * flag standing for a database that raises, in which case (as in the SQLite store) writes and
 * deletes report False, reads give None and listings are empty. JSON is an opaque encoding
 * with an exact decoder.
 */
module Storage {
  import opened Wrappers
  import Seqs

  const LobbyPrefix := "lobby:"
  const PlayerPrefix := "player:"

  function LobbyKey(lobbyId: string): (r: string)
    ensures |r| == |LobbyPrefix| + |lobbyId| && r[..|LobbyPrefix|] == LobbyPrefix && r[|LobbyPrefix|..] == lobbyId
  {
    LobbyPrefix + lobbyId
  }

  function PlayerKey(playerId: string): (r: string)
    ensures |r| == |PlayerPrefix| + |playerId| && r[..|PlayerPrefix|] == PlayerPrefix && r[|PlayerPrefix|..] == playerId
  {
    PlayerPrefix + playerId
  }

  /** The two namespaces never meet, and each key names exactly one id. */
  lemma NamespacesDisjoint(lobbyId: string, playerId: string)
    ensures LobbyKey(lobbyId) != PlayerKey(playerId)
  {
    assert LobbyKey(lobbyId)[0] == 'l' && PlayerKey(playerId)[0] == 'p';
  }

  lemma KeysInjective(a: string, b: string)
    ensures LobbyKey(a) == LobbyKey(b) ==> a == b
    ensures PlayerKey(a) == PlayerKey(b) ==> a == b
  {
  }

  /** A record (`dict`), kept opaque: its JSON body. */
  datatype Doc = Doc(body: string)

  /** `json.dumps`: never the empty string. */
  function Encode(d: Doc): (r: string)
    ensures r != []
  {
    "{" + d.body + "}"
  }

  /** `json.loads`: None for text that is not an encoding (where Python raises). */
  function Decode(s: string): Option<Doc> {
    if |s| >= 2 && s[0] == '{' && s[|s| - 1] == '}' then Some(Doc(s[1..|s| - 1])) else None
  }

  lemma DecodeEncode(d: Doc)
    ensures Decode(Encode(d)) == Some(d)
  {
    assert Encode(d)[1..|Encode(d)| - 1] == d.body;
  }

  /**
   * The tail of `load_lobby` / `load_player`: an absent or empty value is None, any other value is
   * decoded, and text that does not decode raises.
   */
  function Load(value: Option<string>): (r: Result<Option<Doc>, string>)
    ensures r == Ok(None) <==> value.None? || value.value == ""
    ensures r.Ok? && r.value.Some? <==> value.Some? && value.value != "" && Decode(value.value).Some?
  {
    if value.None? || value.value == "" then Ok(None)
    else match Decode(value.value)
      case Some(d) => Ok(Some(d))
      case None => Err("JSONDecodeError")
  }

  /** Whether `p` occurs in `s` at `i`. */
  predicate At(s: string, p: string, i: int) {
    0 <= i && i + |p| <= |s| && s[i..i + |p|] == p
  }

  /** Whether `p` occurs anywhere in `s`. */
  ghost predicate Occurs(s: string, p: string) {
    exists i :: At(s, p, i)
  }

  /** Python `s.replace(p, "")` for a non-empty `p`: every occurrence, left to right, taken out. */
  function StripAll(s: string, p: string): (r: string)
    requires p != []
    ensures |r| <= |s|
    decreases |s|
  {
    if |s| < |p| then s
    else if s[..|p|] == p then StripAll(s[|p|..], p)
    else [s[0]] + StripAll(s[1..], p)
  }

  /** Where `p` does not occur, nothing is taken out. */
  lemma {:induction false} StripAbsent(s: string, p: string)
    requires p != [] && !Occurs(s, p)
    ensures StripAll(s, p) == s
    decreases |s|
  {
    if |s| >= |p| {
      assert !At(s, p, 0);
      forall i | 0 <= i ensures At(s[1..], p, i) == At(s, p, i + 1) {
        if i + |p| <= |s| - 1 {
          assert s[1..][i..i + |p|] == s[i + 1..i + 1 + |p|];
        }
      }
      assert !Occurs(s[1..], p);
      StripAbsent(s[1..], p);
      assert s == [s[0]] + s[1..];
    }
  }

  /** A lobby id in which `lobby:` does not occur is listed as itself. */
  lemma StripLobbyKey(lobbyId: string)
    requires !Occurs(lobbyId, LobbyPrefix)
    ensures StripAll(LobbyKey(lobbyId), LobbyPrefix) == lobbyId
  {
    StripAbsent(lobbyId, LobbyPrefix);
  }

  /** A player id in which `player:` does not occur is listed as itself. */
  lemma StripPlayerKey(playerId: string)
    requires !Occurs(playerId, PlayerPrefix)
    ensures StripAll(PlayerKey(playerId), PlayerPrefix) == playerId
  {
    StripAbsent(playerId, PlayerPrefix);
  }

  /** Because every occurrence goes, the ids `lobby:x` and `x` are listed alike. */
  lemma StripCollision()
    ensures StripAll(LobbyKey(LobbyKey("x")), LobbyPrefix) == StripAll(LobbyKey("x"), LobbyPrefix) == "x"
  {
    assert LobbyKey("x")[..|LobbyPrefix|] == LobbyPrefix && LobbyKey("x")[|LobbyPrefix|..] == "x";
    assert LobbyKey(LobbyKey("x"))[..|LobbyPrefix|] == LobbyPrefix;
    assert LobbyKey(LobbyKey("x"))[|LobbyPrefix|..] == LobbyKey("x");
    assert StripAll("x", LobbyPrefix) == "x";
  }

  /** The keys of `data` beginning with `prefix`: the backend's `keys(prefix + "*")`. */
  function Matching(data: map<string, string>, prefix: string): set<string> {
    set k | k in data && |k| >= |prefix| && k[..|prefix|] == prefix
  }

  /** The keys listed by `get_all_*` stripped of every occurrence of the prefix, in the same order. */
  function StrippedAll(keys: seq<string>, prefix: string): (r: seq<string>)
    requires prefix != []
    ensures |r| == |keys|
    ensures forall i :: 0 <= i < |keys| ==> r[i] == StripAll(keys[i], prefix)
  {
    seq(|keys|, i requires 0 <= i < |keys| => StripAll(keys[i], prefix))
  }

  /** A key-value backend. */
  class Backend {
    var data: map<string, string>
    var connected: bool
    /** A database whose every statement raises. */
    const failing: bool

    constructor (failing: bool)
      ensures data == map[] && !connected && this.failing == failing
    {
      data := map[];
      connected := false;
      this.failing := failing;
    }

    method Connect()
      modifies this`connected
      ensures connected
    {
      connected := true;
    }

    method Disconnect()
      modifies this`connected
      ensures !connected
    {
      connected := false;
    }

    /** `set`: True once the value is stored. */
    method Put(key: string, value: string) returns (ok: bool)
      modifies this`data
      ensures ok <==> !failing
      ensures data == if failing then old(data) else old(data)[key := value]
    {
      if failing {
        return false;
      }
      data := data[key := value];
      ok := true;
    }

    /** `get` */
    function Fetch(key: string): (r: Option<string>)
      reads this
      ensures r.Some? <==> !failing && key in data
      ensures r.Some? ==> r.value == data[key]
    {
      if !failing && key in data then Some(data[key]) else None
    }

    /** `delete`: True unless the database raises, whether or not the key was there. */
    method Remove(key: string) returns (ok: bool)
      modifies this`data
      ensures ok <==> !failing
      ensures data == if failing then old(data) else old(data) - {key}
    {
      if failing {
        return false;
      }
      data := data - {key};
      ok := true;
    }

    /** `keys(prefix + "*")`: every key beginning with `prefix`, each once. */
    method KeysWith(prefix: string) returns (keys: seq<string>)
      ensures failing ==> keys == []
      ensures !failing ==> Seqs.Lists(keys, Matching(data, prefix))
    {
      if failing {
        return [];
      }
      keys := Seqs.Enumerate(Matching(data, prefix));
    }
  }

  class StorageManager {
    const backend: Backend

    /** `__init__`: connects the backend. */
    constructor (backend: Backend)
      modifies backend`connected
      ensures this.backend == backend && backend.connected
    {
      this.backend := backend;
      new;
      backend.Connect();
    }

    /** `save_lobby`: writes the encoding under `lobby:<id>`; the backend's result. */
    method SaveLobby(lobbyId: string, d: Doc) returns (ok: bool)
      modifies backend`data
      ensures ok <==> !backend.failing
      ensures backend.data == if ok then old(backend.data)[LobbyKey(lobbyId) := Encode(d)] else old(backend.data)
      ensures ok ==> LoadLobby(lobbyId) == Ok(Some(d))
    {
      ok := backend.Put(LobbyKey(lobbyId), Encode(d));
      DecodeEncode(d);
    }

    /** `load_lobby` */
    function LoadLobby(lobbyId: string): (r: Result<Option<Doc>, string>)
      reads backend
      ensures backend.Fetch(LobbyKey(lobbyId)).None? ==> r == Ok(None)
    {
      Load(backend.Fetch(LobbyKey(lobbyId)))
    }

    /** `delete_lobby`: only `lobby:<id>` goes; the backend's result. */
    method DeleteLobby(lobbyId: string) returns (ok: bool)
      modifies backend`data
      ensures ok <==> !backend.failing
      ensures backend.data == if ok then old(backend.data) - {LobbyKey(lobbyId)} else old(backend.data)
      ensures LoadLobby(lobbyId) == Ok(None)
    {
      ok := backend.Remove(LobbyKey(lobbyId));
    }

    /** `save_player`: writes the encoding under `player:<id>`; the backend's result. */
    method SavePlayer(playerId: string, d: Doc) returns (ok: bool)
      modifies backend`data
      ensures ok <==> !backend.failing
      ensures backend.data == if ok then old(backend.data)[PlayerKey(playerId) := Encode(d)] else old(backend.data)
      ensures ok ==> LoadPlayer(playerId) == Ok(Some(d))
      ensures forall lobbyId :: LoadLobby(lobbyId) == old(LoadLobby(lobbyId))
    {
      ok := backend.Put(PlayerKey(playerId), Encode(d));
      DecodeEncode(d);
      forall lobbyId ensures LoadLobby(lobbyId) == old(LoadLobby(lobbyId)) {
        NamespacesDisjoint(lobbyId, playerId);
      }
    }

    /** `load_player` */
    function LoadPlayer(playerId: string): (r: Result<Option<Doc>, string>)
      reads backend
      ensures backend.Fetch(PlayerKey(playerId)).None? ==> r == Ok(None)
    {
      Load(backend.Fetch(PlayerKey(playerId)))
    }

    /**
     * `get_all_lobbies`: the stored lobby keys with every `lobby:` taken out; each stored id in
     * which `lobby:` does not occur is listed as itself.
     */
    method GetAllLobbies() returns (ids: seq<string>)
      ensures backend.failing ==> ids == []
      ensures !backend.failing ==> forall lobbyId :: LobbyKey(lobbyId) in backend.data && !Occurs(lobbyId, LobbyPrefix) ==> lobbyId in ids
      ensures !backend.failing ==> exists keys :: Seqs.Lists(keys, Matching(backend.data, LobbyPrefix)) && ids == StrippedAll(keys, LobbyPrefix)
    {
      var keys := backend.KeysWith(LobbyPrefix);
      ids := StrippedAll(keys, LobbyPrefix);
      forall lobbyId | !backend.failing && LobbyKey(lobbyId) in backend.data && !Occurs(lobbyId, LobbyPrefix)
        ensures lobbyId in ids
      {
        assert LobbyKey(lobbyId) in Matching(backend.data, LobbyPrefix);
        var j :| 0 <= j < |keys| && keys[j] == LobbyKey(lobbyId);
        StripLobbyKey(lobbyId);
        assert ids[j] == lobbyId;
      }
    }

    /** `get_all_players`: as `get_all_lobbies`, over the `player:` keys. */
    method GetAllPlayers() returns (ids: seq<string>)
      ensures backend.failing ==> ids == []
      ensures !backend.failing ==> forall playerId :: PlayerKey(playerId) in backend.data && !Occurs(playerId, PlayerPrefix) ==> playerId in ids
      ensures !backend.failing ==> exists keys :: Seqs.Lists(keys, Matching(backend.data, PlayerPrefix)) && ids == StrippedAll(keys, PlayerPrefix)
    {
      var keys := backend.KeysWith(PlayerPrefix);
      ids := StrippedAll(keys, PlayerPrefix);
      forall playerId | !backend.failing && PlayerKey(playerId) in backend.data && !Occurs(playerId, PlayerPrefix)
        ensures playerId in ids
      {
        assert PlayerKey(playerId) in Matching(backend.data, PlayerPrefix);
        var j :| 0 <= j < |keys| && keys[j] == PlayerKey(playerId);
        StripPlayerKey(playerId);
        assert ids[j] == playerId;
      }
    }

    /** `close`: disconnects the backend. */
    method Close()
      modifies backend`connected
      ensures !backend.connected
    {
      backend.Disconnect();
    }
  }
}
