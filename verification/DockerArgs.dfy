/** The argument vector of `docker create` (`becky-fx-docker`) against a reader of it. */
module DockerArgs {
  import opened Wrappers

  datatype Container = Container(
    name: string,
    network: Option<string>,
    env: seq<(string, string)>,
    image: string,
    command: seq<string>)

  function EnvArgs(env: seq<(string, string)>): seq<string> {
    if env == [] then [] else ["--env", env[0].0 + "=" + env[0].1] + EnvArgs(env[1..])
  }

  function NetworkArgs(network: Option<string>): seq<string> {
    match network
    case None => []
    case Some(name) => ["--network", name]
  }

  function Args(c: Container): seq<string> {
    ["create", "--name", c.name] + NetworkArgs(c.network) + EnvArgs(c.env) + [c.image] + c.command
  }

  lemma {:induction false} EnvArgsSnoc(env: seq<(string, string)>, e: (string, string))
    ensures EnvArgs(env + [e]) == EnvArgs(env) + ["--env", e.0 + "=" + e.1]
  {
    var all := env + [e];
    if env == [] {
      assert all[1..] == [];
    } else {
      EnvArgsSnoc(env[1..], e);
      assert all[1..] == env[1..] + [e];
    }
  }

  lemma EnvArgsOne(key: string, value: string)
    ensures EnvArgs([(key, value)]) == ["--env", key + "=" + value]
  {
    EnvArgsSnoc([], (key, value));
    assert [] + [(key, value)] == [(key, value)];
  }

  method DockerCreateArgs(name: string, image: string, network: Option<string>, env: seq<(string, string)>,
                          command: seq<string>) returns (args: seq<string>)
    ensures args == Args(Container(name, network, env, image, command))
  {
    args := ["create", "--name", name];
    if network.Some? {
      args := args + ["--network", network.value];
    }
    ghost var start := args;
    for i := 0 to |env|
      invariant args == start + EnvArgs(env[..i])
    {
      EnvArgsSnoc(env[..i], env[i]);
      assert env[..i + 1] == env[..i] + [env[i]];
      args := args + ["--env", env[i].0 + "=" + env[i].1];
    }
    assert env[..|env|] == env;
    assert start == ["create", "--name", name] + NetworkArgs(network);
    args := args + [image] + command;
  }

  /** Where the first equals sign is. */
  function EqualsAt(s: string): (n: nat)
    ensures n <= |s|
    ensures n < |s| ==> s[n] == '='
    ensures forall i | 0 <= i < n :: s[i] != '='
  {
    if s == "" || s[0] == '=' then 0 else 1 + EqualsAt(s[1..])
  }

  predicate IsOption(arg: string) { |arg| >= 2 && arg[..2] == "--" }

  /** The arguments after the name: options with one value each, then the image and its
      command. */
  function Options(args: seq<string>, c: Container): (r: Option<Container>)
    requires forall e | e in c.env :: '=' !in e.0
    ensures r.Some? ==> !IsOption(r.value.image) && forall e | e in r.value.env :: '=' !in e.0
  {
    if args == [] then None
    else if !IsOption(args[0]) then Some(c.(image := args[0], command := args[1..]))
    else if |args| == 1 then None
    else if args[0] == "--network" then Options(args[2..], c.(network := Some(args[1])))
    else if args[0] == "--env" then
      var n := EqualsAt(args[1]);
      if n == |args[1]| then None
      else Options(args[2..], c.(env := c.env + [(args[1][..n], args[1][n + 1..])]))
    else None
  }

  /** A reader of `docker create --name <name> [options] <image> <command>`. */
  function Decode(args: seq<string>): Option<Container> {
    if |args| < 3 || args[0] != "create" || args[1] != "--name" then None
    else Options(args[3..], Container(args[2], None, [], "", []))
  }

  /** What Docker's own option syntax can express. */
  predicate Expressible(c: Container) {
    !IsOption(c.image) && forall e | e in c.env :: '=' !in e.0
  }

  lemma KeyEndsAtEquals(key: string, value: string)
    requires '=' !in key
    ensures EqualsAt(key + "=" + value) == |key|
  {
    var s := key + "=" + value;
    assert s[|key|] == '=';
    assert forall i | 0 <= i < |key| :: s[i] == key[i];
  }

  lemma OneEnvRoundTrip(key: string, value: string, rest: seq<string>, c: Container)
    requires '=' !in key && forall e | e in c.env :: '=' !in e.0
    ensures Options(["--env", key + "=" + value] + rest, c) == Options(rest, c.(env := c.env + [(key, value)]))
  {
    var args, text := ["--env", key + "=" + value] + rest, key + "=" + value;
    KeyEndsAtEquals(key, value);
    assert text[..|key|] == key && text[|key| + 1..] == value;
    assert args[0] == "--env" && args[1] == text && args[2..] == rest && "--env"[..2] == "--";
  }

  lemma {:induction false} EnvRoundTrip(env: seq<(string, string)>, rest: seq<string>, c: Container)
    requires forall e | e in c.env + env :: '=' !in e.0
    ensures Options(EnvArgs(env) + rest, c) == Options(rest, c.(env := c.env + env))
  {
    if env == [] {
      assert EnvArgs(env) + rest == rest && c.env + env == c.env;
    } else {
      assert env[0] in c.env + env;
      var first := ["--env", env[0].0 + "=" + env[0].1];
      assert EnvArgs(env) + rest == first + (EnvArgs(env[1..]) + rest);
      OneEnvRoundTrip(env[0].0, env[0].1, EnvArgs(env[1..]) + rest, c);
      var grown := c.(env := c.env + [env[0]]);
      assert grown.env + env[1..] == c.env + env;
      EnvRoundTrip(env[1..], rest, grown);
    }
  }

  lemma NetworkRoundTrip(c: Container, rest: seq<string>)
    requires c.network == None && c.env == []
    ensures forall network :: Options(NetworkArgs(network) + rest, c) == Options(rest, c.(network := network))
  {
    forall network: Option<string>
      ensures Options(NetworkArgs(network) + rest, c) == Options(rest, c.(network := network))
    {
      if network.Some? {
        var args := NetworkArgs(network) + rest;
        assert args[0] == "--network" && args[1] == network.value && args[2..] == rest && "--network"[..2] == "--";
      } else {
        assert NetworkArgs(network) + rest == rest;
      }
    }
  }

  lemma ExpressibleRoundTrip(c: Container)
    requires Expressible(c)
    ensures Decode(Args(c)) == Some(c)
  {
    var start := Container(c.name, None, [], "", []);
    var tail := [c.image] + c.command;
    assert Args(c)[3..] == NetworkArgs(c.network) + (EnvArgs(c.env) + tail);
    NetworkRoundTrip(start, EnvArgs(c.env) + tail);
    var networked := start.(network := c.network);
    assert networked.env + c.env == c.env;
    EnvRoundTrip(c.env, tail, networked);
    assert tail[1..] == c.command;
  }

  /** The vector gives the container back exactly when the image is not an option and no
      environment key contains an equals sign. */
  lemma ArgsRoundTrip(c: Container)
    ensures Decode(Args(c)) == Some(c) <==> Expressible(c)
  {
    if Expressible(c) {
      ExpressibleRoundTrip(c);
    }
  }

  /** So expressible containers never share an argument vector. */
  lemma ArgsInjective(a: Container, b: Container)
    requires Expressible(a) && Expressible(b) && Args(a) == Args(b)
    ensures a == b
  {
    ArgsRoundTrip(a);
    ArgsRoundTrip(b);
  }

  /** Both conditions are needed: an image named like an option, and a key holding an equals
      sign, are each read as another container. */
  lemma ArgsCanCollide(name: string, a: string, b: string, c: string, image: string, command: seq<string>)
    ensures Args(Container(name, None, [], "--env", [a + "=" + b, image] + command))
            == Args(Container(name, None, [(a, b)], image, command))
    ensures Args(Container(name, None, [(a + "=" + b, c)], image, command))
            == Args(Container(name, None, [(a, b + "=" + c)], image, command))
  {
    EnvArgsOne(a, b);
    EnvArgsOne(a + "=" + b, c);
    EnvArgsOne(a, b + "=" + c);
    assert (a + "=" + b) + "=" + c == a + "=" + (b + "=" + c);
    var head := ["create", "--name", name] + [];
    assert head + [] + ["--env"] + ([a + "=" + b, image] + command)
        == head + ["--env", a + "=" + b] + [image] + command;
  }
}
