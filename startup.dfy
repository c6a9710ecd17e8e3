/**
 * The command-line configuration and the checks made before any connection:
 * every value the registration needs must be non-empty, and the first empty
 * one is fatal (`log.Fatal`, exit status 1).
 */
module Startup {
  import opened Wrappers

  /** The exit status of `log.Fatal` and `os.Exit(1)`. */
  const FatalExitStatus := 1

  /**
   * The flag values the session uses. The `-server` flag only selects the
   * WebSocket endpoint, which is not part of this model.
   */
  datatype Config = Config(
    clientID: string,
    authToken: string,
    subscriptionType: string,
    subscriptionVersion: string,
    condition: string)

  /** A required flag: its value and the message logged when it is empty. */
  datatype Requirement = Requirement(value: string, message: string)

  /** The required flags, in the order they are checked. */
  function Requirements(c: Config): seq<Requirement> {
    [ Requirement(c.clientID, "Client ID must be set"),
      Requirement(c.authToken, "Auth token must be set"),
      Requirement(c.subscriptionType, "Subscription type must be set"),
      Requirement(c.subscriptionVersion, "Subscription version must be set"),
      Requirement(c.condition, "Condition version must be set") ]
  }

  /** The message of the first requirement whose value is empty, if any. */
  function FirstMissing(rs: seq<Requirement>): (r: Option<string>)
    ensures r.None? <==> forall i :: 0 <= i < |rs| ==> rs[i].value != ""
    ensures r.Some? ==> exists i :: 0 <= i < |rs| && rs[i].value == "" && rs[i].message == r.value
                                      && forall j :: 0 <= j < i ==> rs[j].value != ""
    decreases |rs|
  {
    if rs == [] then None
    else if rs[0].value == "" then Some(rs[0].message)
    else
      var r := FirstMissing(rs[1..]);
      assert r.Some? ==> exists i :: 1 <= i < |rs| && rs[i].value == "" && rs[i].message == r.value
                                       && forall j :: 0 <= j < i ==> rs[j].value != "" by {
        if r.Some? {
          var i :| 0 <= i < |rs[1..]| && rs[1..][i].value == "" && rs[1..][i].message == r.value
                   && forall j :: 0 <= j < i ==> rs[1..][j].value != "";
          assert rs[i + 1] == rs[1..][i];
          forall j | 0 <= j < i + 1 ensures rs[j].value != "" {
            if j > 0 { assert rs[j] == rs[1..][j - 1]; }
          }
        }
      }
      r
  }

  /**
   * The startup check: the configuration is accepted exactly when client id,
   * token, subscription type, version and condition are all non-empty;
   * otherwise the result is the fatal message of the first empty one.
   */
  function CheckConfig(c: Config): (r: Option<string>)
    ensures r.None? <==>
      c.clientID != "" && c.authToken != "" && c.subscriptionType != ""
      && c.subscriptionVersion != "" && c.condition != ""
    ensures r.Some? ==>
      var rs := Requirements(c);
      exists i :: 0 <= i < |rs| && rs[i].value == "" && rs[i].message == r.value
                  && forall j :: 0 <= j < i ==> rs[j].value != ""
  {
    var rs := Requirements(c);
    assert (forall i :: 0 <= i < |rs| ==> rs[i].value != "") <==>
      (c.clientID != "" && c.authToken != "" && c.subscriptionType != ""
       && c.subscriptionVersion != "" && c.condition != "") by {
      assert rs[0].value == c.clientID && rs[1].value == c.authToken && rs[2].value == c.subscriptionType
        && rs[3].value == c.subscriptionVersion && rs[4].value == c.condition;
    }
    FirstMissing(rs)
  }
}
