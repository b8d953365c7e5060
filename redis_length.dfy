/**
 * The key-length collector for Redis (`RedisLengthCollector`): how the `instances` setting
 * becomes a nickname-to-address map, the precision and name of a published length, and which
 * configured keys get measured. The Redis client is a parameter: the type it reports for a key
 * and the length its length command returns.
 */
module RedisLength {
  import opened Outcomes
  import opened Text
  import opened Metrics
  import opened Settings

  const DefaultHost: string := "localhost"
  const DefaultPort: int := 6379

  /** Where one Redis instance listens. */
  datatype Address = Address(host: string, port: int)

  /**
   * The instance list `__init__` works through: a single string becomes a one-element list, and an
   * empty list becomes the one instance `host:port` made from the `host` and `port` settings.
   */
  function InstanceList(instances: ConfigValue, host: string, port: string): (r: seq<string>)
    ensures instances.Single? ==> r == [instances.text]
    ensures instances == Multiple([]) ==> r == [host + ":" + port]
    ensures instances.Multiple? && instances.items != [] ==> r == instances.items
  {
    match instances
    case Single(text) => [text]
    case Multiple(items) => if items == [] then [host + ":" + port] else items
  }

  /** The address part of an instance: `host:port`, `:port` or a bare host. */
  function ParseHostPort(hostport: string): Option<Address>
  {
    if ':' in hostport then
      if hostport[0] == ':' then
        match ParseInt(hostport[1..])
        case None => None
        case Some(port) => Some(Address(DefaultHost, port))
      else
        var parts := Split(hostport, ':');
        match ParseInt(parts[1])
        case None => None
        case Some(port) => Some(Address(parts[0], port))
    else Some(Address(hostport, DefaultPort))
  }

  /**
   * One instance: `nick@hostport` or a bare hostport; without a nickname the port, printed, is the
   * nickname. `None` where `__init__` raises: more than one `@` (the two-name unpacking fails) or a
   * port `int()` rejects.
   */
  function ParseInstance(instance: string): Option<(string, Address)>
  {
    if '@' in instance then
      var parts := Split(instance, '@');
      if |parts| != 2 then None
      else
        match ParseHostPort(parts[1])
        case None => None
        case Some(a) => Some((parts[0], a))
    else
      match ParseHostPort(instance)
      case None => None
      case Some(a) => Some((IntToString(a.port), a))
  }

  /** `host:port` names the host before the colon and the port written after it. */
  lemma ParseHostAndPort(host: string, port: string, n: int)
    requires ':' !in host && ':' !in port && host != [] && ParseInt(port) == Some(n)
    ensures ParseHostPort(host + ":" + port) == Some(Address(host, n))
  {
    var hostport := host + ":" + port;
    assert hostport == host + [':'] + port;
    SplitAtFirst(host, port, ':');
    assert hostport[|host|] == ':';
    assert hostport[0] == host[0];
  }

  /** `nick@host:port` names `nick` at `host` and the port written after the colon. */
  lemma ParseNickHostPort(nick: string, host: string, port: string, n: int)
    requires '@' !in nick && '@' !in host && '@' !in port && ':' !in host && ':' !in port
    requires host != [] && ParseInt(port) == Some(n)
    ensures ParseInstance(nick + "@" + host + ":" + port) == Some((nick, Address(host, n)))
  {
    var hostport := host + ":" + port;
    var instance := nick + "@" + host + ":" + port;
    assert instance == nick + ['@'] + hostport;
    SplitAtFirst(nick, hostport, '@');
    assert '@' !in hostport;
    assert Split(instance, '@') == [nick, hostport];
    ParseHostAndPort(host, port, n);
  }

  /** `nick@:port` and `:port` name the local host, at the port written after the colon. */
  lemma ParseLocalPort(port: string, n: int)
    requires ParseInt(port) == Some(n)
    ensures ParseHostPort(":" + port) == Some(Address(DefaultHost, n))
  {
    assert (":" + port)[1..] == port;
  }

  /** A hostport without a colon is all host, on the default port; without a nickname it is named "6379". */
  lemma ParseBareHost(host: string)
    requires ':' !in host && '@' !in host
    ensures ParseInstance(host) == Some((IntToString(DefaultPort), Address(host, DefaultPort)))
  {
  }

  /** An instance with two `@` signs has no single nickname: `__init__` fails on it. */
  lemma TwoNicknamesRejected(a: string, b: string, c: string)
    requires '@' !in a && '@' !in b
    ensures ParseInstance(a + "@" + b + "@" + c) == None
  {
    var instance := a + "@" + b + "@" + c;
    assert instance == a + ['@'] + (b + ['@'] + c);
    SplitAtFirst(a, b + ['@'] + c, '@');
    SplitAtFirst(b, c, '@');
    assert |Split(instance, '@')| >= 3;
  }

  /** Adds the instances to the map in order; a later nickname replaces an earlier one. */
  function AddInstances(m: map<string, Address>, items: seq<string>): Option<map<string, Address>>
    decreases |items|
  {
    if items == [] then Some(m)
    else match ParseInstance(items[0])
      case None => None
      case Some(parsed) => AddInstances(m[parsed.0 := parsed.1], items[1..])
  }

  /** No later instance uses the nickname of the one at `i`. */
  predicate LastWithNick(items: seq<string>, i: nat)
    requires i < |items| && forall j :: 0 <= j < |items| ==> ParseInstance(items[j]).Some?
  {
    forall j :: i < j < |items| ==> ParseInstance(items[j]).value.0 != ParseInstance(items[i]).value.0
  }

  /** The map after inserting already parsed instances in order. */
  function InsertAll(m: map<string, Address>, pairs: seq<(string, Address)>): map<string, Address>
    decreases |pairs|
  {
    if pairs == [] then m else InsertAll(m[pairs[0].0 := pairs[0].1], pairs[1..])
  }

  /** Every inserted nickname is a key, and a nickname no later pair reuses keeps its own address. */
  lemma {:induction false} InsertAllMeaning(m: map<string, Address>, pairs: seq<(string, Address)>)
    ensures forall i :: 0 <= i < |pairs| ==> pairs[i].0 in InsertAll(m, pairs)
    ensures forall i :: 0 <= i < |pairs| && (forall j :: i < j < |pairs| ==> pairs[j].0 != pairs[i].0) ==>
              InsertAll(m, pairs)[pairs[i].0] == pairs[i].1
    decreases |pairs|
  {
    if pairs != [] {
      var m1 := m[pairs[0].0 := pairs[0].1];
      var tail := pairs[1..];
      InsertAllMeaning(m1, tail);
      InsertAllKeeps(m1, tail, pairs[0].0);
      forall i | 0 < i < |pairs| ensures pairs[i] == tail[i - 1] { }
    }
  }

  /** A nickname no pair uses keeps what the map held for it. */
  lemma {:induction false} InsertAllKeeps(m: map<string, Address>, pairs: seq<(string, Address)>, nick: string)
    ensures (forall j :: 0 <= j < |pairs| ==> pairs[j].0 != nick) ==>
              (nick in InsertAll(m, pairs) <==> nick in m) && (nick in m ==> InsertAll(m, pairs)[nick] == m[nick])
    decreases |pairs|
  {
    if pairs != [] {
      InsertAllKeeps(m[pairs[0].0 := pairs[0].1], pairs[1..], nick);
      assert forall j :: 0 < j < |pairs| ==> pairs[1..][j - 1] == pairs[j];
    }
  }

  /** The instances, each parsed. */
  function ParsedAll(items: seq<string>): (r: seq<(string, Address)>)
    requires forall j :: 0 <= j < |items| ==> ParseInstance(items[j]).Some?
    ensures |r| == |items|
  {
    seq(|items|, j requires 0 <= j < |items| => ParseInstance(items[j]).value)
  }

  /** Building the map fails exactly when some instance is malformed, and otherwise inserts the parsed instances. */
  lemma {:induction false} AddInstancesInserts(m: map<string, Address>, items: seq<string>)
    ensures AddInstances(m, items).Some? <==> forall j :: 0 <= j < |items| ==> ParseInstance(items[j]).Some?
    ensures AddInstances(m, items).Some? ==> AddInstances(m, items).value == InsertAll(m, ParsedAll(items))
    decreases |items|
  {
    if items != [] {
      var tail := items[1..];
      assert forall j :: 0 < j < |items| ==> tail[j - 1] == items[j];
      if ParseInstance(items[0]).Some? {
        var parsed := ParseInstance(items[0]).value;
        AddInstancesInserts(m[parsed.0 := parsed.1], tail);
        if AddInstances(m, items).Some? {
          var ps := ParsedAll(items);
          assert ps[0] == parsed;
          assert ps[1..] == ParsedAll(tail);
        }
      }
    }
  }

  /**
   * Building the map fails exactly when some instance is malformed; otherwise every instance's
   * nickname is a key, and maps to that instance's address when no later instance reuses it.
   */
  lemma AddInstancesMeaning(m: map<string, Address>, items: seq<string>)
    ensures AddInstances(m, items).Some? <==> forall j :: 0 <= j < |items| ==> ParseInstance(items[j]).Some?
    ensures AddInstances(m, items).Some? ==>
              forall i :: 0 <= i < |items| ==> ParseInstance(items[i]).value.0 in AddInstances(m, items).value
    ensures AddInstances(m, items).Some? ==>
              forall i :: 0 <= i < |items| && LastWithNick(items, i) ==>
                AddInstances(m, items).value[ParseInstance(items[i]).value.0] == ParseInstance(items[i]).value.1
  {
    AddInstancesInserts(m, items);
    if AddInstances(m, items).Some? {
      var ps := ParsedAll(items);
      var r := AddInstances(m, items).value;
      InsertAllMeaning(m, ps);
      forall i | 0 <= i < |items|
        ensures ParseInstance(items[i]).value.0 in r
        ensures LastWithNick(items, i) ==> r[ParseInstance(items[i]).value.0] == ParseInstance(items[i]).value.1
      {
        assert ps[i] == ParseInstance(items[i]).value;
        if LastWithNick(items, i) {
          forall j | i < j < |ps| ensures ps[j].0 != ps[i].0 {
            assert ps[j] == ParseInstance(items[j]).value;
          }
        }
      }
    }
  }

  /** The map building from instance `i` on, one instance unfolded. */
  lemma AddInstancesStep(m: map<string, Address>, items: seq<string>, i: nat)
    requires i < |items|
    ensures AddInstances(m, items[i..]) ==
              match ParseInstance(items[i])
              case None => None
              case Some(parsed) => AddInstances(m[parsed.0 := parsed.1], items[i + 1..])
  {
    assert items[i..][0] == items[i] && items[i..][1..] == items[i + 1..];
  }

  /**
   * The instance parsing of `__init__`: the nickname-to-address map, or `None` where `__init__`
   * raises on a malformed instance.
   */
  method ParseInstances(instances: ConfigValue, host: string, port: string) returns (r: Option<map<string, Address>>)
    ensures r == AddInstances(map[], InstanceList(instances, host, port))
  {
    var items := InstanceList(instances, host, port);
    var result: map<string, Address> := map[];
    var i := 0;
    while i < |items|
      invariant 0 <= i <= |items|
      invariant AddInstances(result, items[i..]) == AddInstances(map[], items)
    {
      AddInstancesStep(result, items, i);
      var parsed := ParseInstance(items[i]);
      if parsed.None? {
        return None;
      }
      result := result[parsed.value.0 := parsed.value.1];
      i := i + 1;
    }
    assert items[|items|..] == [];
    return Some(result);
  }

  /** `_precision`: the number of characters after the last `.`, or 0 when there is none. */
  function Precision(value: string): (r: nat)
    ensures '.' !in value ==> r == 0
    ensures '.' in value ==> r < |value| && value[|value| - 1 - r] == '.' && '.' !in value[|value| - r..]
  {
    var decimal := RFind(value, '.');
    if decimal == -1 then 0 else |value| - decimal - 1
  }

  /** A printed integer has no decimal point, so every published length has precision 0. */
  lemma PrecisionOfInteger(n: int)
    ensures Precision(IntToString(n)) == 0
  {
    var s := IntToString(n);
    if n < 0 {
      assert s == "-" + NatToString(-n);
      assert forall i :: 0 <= i < |s| ==> s[i] == '-' || IsDigit(s[i]);
    }
  }

  /** `_publish_key`: `nick.length.key`. */
  function PublishKey(nick: string, key: string): string
  {
    nick + ".length." + key
  }

  /** Under one nickname, different keys are published under different names. */
  lemma PublishKeyInjective(nick: string, k1: string, k2: string)
    requires PublishKey(nick, k1) == PublishKey(nick, k2)
    ensures k1 == k2
  {
    var n := |nick| + 8;
    assert PublishKey(nick, k1)[n..] == k1;
    assert PublishKey(nick, k2)[n..] == k2;
  }

  /** The command that measures each Redis type (`length_functions`). */
  const LengthFunctions: map<string, string> :=
    map["list" := "llen", "set" := "scard", "zset" := "zcard", "hash" := "hlen", "string" := "strlen"]

  /** The replies of one connected Redis client: `type(key)` and the named length command on a key. */
  datatype Client = Client(keyType: string -> string, length: (string, string) -> int)

  /** `_get_length`: the key's length by the command for its type, `None` for a type without one. */
  function GetLength(client: Client, key: string): Option<int>
  {
    var keyType := client.keyType(key);
    if keyType in LengthFunctions then Some(client.length(LengthFunctions[keyType], key)) else None
  }

  /** Lists, sets, sorted sets, hashes and strings are measured by their own commands; any other type is not measured. */
  lemma GetLengthCommands(client: Client, key: string)
    ensures client.keyType(key) == "list" ==> GetLength(client, key) == Some(client.length("llen", key))
    ensures client.keyType(key) == "set" ==> GetLength(client, key) == Some(client.length("scard", key))
    ensures client.keyType(key) == "zset" ==> GetLength(client, key) == Some(client.length("zcard", key))
    ensures client.keyType(key) == "hash" ==> GetLength(client, key) == Some(client.length("hlen", key))
    ensures client.keyType(key) == "string" ==> GetLength(client, key) == Some(client.length("strlen", key))
    ensures client.keyType(key) !in ["list", "set", "zset", "hash", "string"] ==> GetLength(client, key) == None
  {
  }

  /** The `keys` setting as `collect_instance` iterates it: a single string is iterated character by character. */
  function KeysAsWritten(keys: ConfigValue): (r: seq<string>)
    ensures keys.Single? ==> |r| == |keys.text| && forall i :: 0 <= i < |r| ==> r[i] == [keys.text[i]]
  {
    match keys
    case Single(text) => seq(|text|, i requires 0 <= i < |text| => [text[i]])
    case Multiple(items) => items
  }

  /** One configured key of two or more characters is never measured as written: only its characters are. */
  lemma SingleKeyIsSplitIntoCharacters(key: string)
    requires |key| > 1
    ensures key !in KeysAsWritten(Single(key))
    ensures forall k :: k in KeysAsWritten(Single(key)) ==> |k| == 1
  {
  }

  /** The `keys` setting as a list of keys, a single string being one key, as `instances` is treated. */
  function KeyList(keys: ConfigValue): (r: seq<string>)
    ensures keys.Single? ==> r == [keys.text]
    ensures keys.Multiple? ==> r == keys.items
  {
    match keys
    case Single(text) => [text]
    case Multiple(items) => items
  }

  /** The measuring loop from a map already holding some lengths, over the keys still to measure. */
  function MeasureFrom(client: Client, data: map<string, int>, keys: seq<string>): map<string, int>
    decreases |keys|
  {
    if keys == [] then data
    else
      var key := keys[0];
      var next := if |key| > 0 && GetLength(client, key).Some? then data[key := GetLength(client, key).value] else data;
      MeasureFrom(client, next, keys[1..])
  }

  /**
   * Measuring adds exactly the non-empty keys whose type has a length command, each with its
   * length, and keeps every other entry.
   */
  lemma {:induction false} MeasureFromMeaning(client: Client, data: map<string, int>, keys: seq<string>)
    ensures forall k :: k in MeasureFrom(client, data, keys) <==> k in data || (k in keys && |k| > 0 && GetLength(client, k).Some?)
    ensures forall k :: k in MeasureFrom(client, data, keys) ==>
              MeasureFrom(client, data, keys)[k] ==
                if k in keys && |k| > 0 && GetLength(client, k).Some? then GetLength(client, k).value else data[k]
    decreases |keys|
  {
    if keys != [] {
      var key := keys[0];
      var next := if |key| > 0 && GetLength(client, key).Some? then data[key := GetLength(client, key).value] else data;
      MeasureFromMeaning(client, next, keys[1..]);
      assert forall k :: k in keys <==> k == key || k in keys[1..];
    }
  }

  /**
   * The measuring loop of `collect_instance`: the lengths of the configured non-empty keys whose
   * type has a length command.
   */
  method MeasureKeys(client: Client, keys: ConfigValue) returns (data: map<string, int>)
    ensures data == MeasureFrom(client, map[], KeyList(keys))
  {
    data := map[];
    var list := KeyList(keys);
    var i := 0;
    while i < |list|
      invariant 0 <= i <= |list|
      invariant MeasureFrom(client, data, list[i..]) == MeasureFrom(client, map[], list)
    {
      var key := list[i];
      assert list[i..][0] == key && list[i..][1..] == list[i + 1..];
      if |key| > 0 {
        var length := GetLength(client, key);
        if length.Some? {
          data := data[key := length.value];
        }
      }
      i := i + 1;
    }
    assert list[i..] == [];
  }

  /** The publishing loop of `collect_instance`: one point per measured key, at precision 0. */
  method PublishLengths(nick: string, data: map<string, int>) returns (points: set<Point>)
    ensures points == set k | k in data :: Point(PublishKey(nick, k), data[k] as real, 0)
  {
    points := {};
    var remaining := data.Keys;
    while remaining != {}
      invariant remaining <= data.Keys
      invariant points == set k | k in data && k !in remaining :: Point(PublishKey(nick, k), data[k] as real, 0)
      decreases remaining
    {
      var key :| key in remaining;
      PrecisionOfInteger(data[key]);
      points := points + {Point(PublishKey(nick, key), data[key] as real, Precision(IntToString(data[key])))};
      remaining := remaining - {key};
    }
  }

  /** Every measured key is published once, under its own name. */
  lemma PublishedLengths(nick: string, data: map<string, int>, k: string)
    requires k in data
    ensures Point(PublishKey(nick, k), data[k] as real, 0) in set k | k in data :: Point(PublishKey(nick, k), data[k] as real, 0)
    ensures forall pt :: pt in (set k | k in data :: Point(PublishKey(nick, k), data[k] as real, 0)) && pt.name == PublishKey(nick, k) ==>
              pt.value == data[k] as real
  {
    forall pt | pt in (set k | k in data :: Point(PublishKey(nick, k), data[k] as real, 0)) && pt.name == PublishKey(nick, k)
      ensures pt.value == data[k] as real
    {
      var k' :| k' in data && pt == Point(PublishKey(nick, k'), data[k'] as real, 0);
      PublishKeyInjective(nick, k', k);
    }
  }

  /**
   * What `collect_instance` publishes for one instance: for each configured non-empty key whose
   * type has a length command, its length under `nick.length.key`; nothing when the instance
   * cannot be reached.
   */
  ghost function InstancePoints(nick: string, client: Option<Client>, keys: ConfigValue): set<Point>
  {
    match client
    case None => {}
    case Some(c) =>
      set k | k in KeyList(keys) && |k| > 0 && GetLength(c, k).Some? :: Point(PublishKey(nick, k), GetLength(c, k).value as real, 0)
  }

  /**
   * `collect_instance`: measures the configured keys and publishes their lengths. An instance
   * that cannot be reached publishes nothing.
   */
  method CollectInstance(nick: string, client: Option<Client>, keys: ConfigValue)
    returns (data: map<string, int>, points: set<Point>)
    ensures client.None? ==> data == map[]
    ensures client.Some? ==> forall k :: k in data <==> k in KeyList(keys) && |k| > 0 && GetLength(client.value, k).Some?
    ensures client.Some? ==> forall k :: k in data ==> data[k] == GetLength(client.value, k).value
    ensures points == set k | k in data :: Point(PublishKey(nick, k), data[k] as real, 0)
    ensures points == InstancePoints(nick, client, keys)
  {
    if client.None? {
      return map[], {};
    }
    data := MeasureKeys(client.value, keys);
    MeasureFromMeaning(client.value, map[], KeyList(keys));
    points := PublishLengths(nick, data);
  }

  /** `collect`: every configured instance, each under its own nickname. */
  method Collect(instances: map<string, Address>, connect: Address -> Option<Client>, keys: ConfigValue)
    returns (points: set<Point>)
    ensures forall pt :: pt in points <==>
              exists nick :: nick in instances && pt in InstancePoints(nick, connect(instances[nick]), keys)
  {
    points := {};
    var remaining := instances.Keys;
    while remaining != {}
      invariant remaining <= instances.Keys
      invariant forall pt :: pt in points <==>
                  exists nick :: nick in instances && nick !in remaining && pt in InstancePoints(nick, connect(instances[nick]), keys)
      decreases remaining
    {
      var nick :| nick in remaining;
      var _, published := CollectInstance(nick, connect(instances[nick]), keys);
      points := points + published;
      remaining := remaining - {nick};
    }
  }
}
