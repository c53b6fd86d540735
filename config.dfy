/** The relay's configuration as read from the process environment, and the
    lists of missing settings that the action webhook, the health check and
    startup report. */
module Config {
  import opened Json

  /** The process environment: variable name to value. */
  type Env = map<string, string>

  const ApiKeyVar := "EIGHT_X_EIGHT_API_KEY"
  const SubaccountVar := "EIGHT_X_EIGHT_SUBACCOUNT_ID"
  const ForwardedVar := "FORWARDED_PHONE_NUMBER"

  /** The variables the relay cannot work without, in reporting order. */
  const RequiredVars: seq<string> := [ApiKeyVar, SubaccountVar, ForwardedVar]

  /** The item the action webhook reports when the event carries no usable
      destination (the virtual number). */
  const VirtualNumberItem := "virtual_number from webhook"

  /** `os.getenv(name)` is truthy: the variable is set and not empty. */
  predicate IsSet(env: Env, name: string) {
    name in env && env[name] != ""
  }

  /** `[var for var in names if not os.getenv(var)]`: the unset names, in the
      order `names` gives them. */
  function Unset(env: Env, names: seq<string>): (r: seq<string>)
    ensures |r| <= |names|
    ensures forall x :: x in r <==> x in names && !IsSet(env, x)
    ensures forall i :: 0 <= i < |r| ==> !IsSet(env, r[i])
  {
    if names == [] then []
    else (if IsSet(env, names[0]) then [] else [names[0]]) + Unset(env, names[1..])
  }

  /** The required variables that are unset or empty. */
  function MissingRequired(env: Env): (r: seq<string>)
    ensures forall x :: x in r <==> x in RequiredVars && !IsSet(env, x)
    ensures r == [] <==> IsSet(env, ApiKeyVar) && IsSet(env, SubaccountVar) && IsSet(env, ForwardedVar)
  {
    var r := Unset(env, RequiredVars);
    assert r != [] ==> r[0] in r;
    r
  }

  /** `[name]` when `name` is missing, otherwise nothing: one `append` step. */
  function IfUnset(env: Env, name: string): seq<string> {
    if IsSet(env, name) then [] else [name]
  }

  /** The filtered list has exactly the shape the successive appends of the
      startup check and the action webhook build: one optional entry per
      required variable, in the fixed order. */
  lemma {:induction false} MissingRequiredInOrder(env: Env)
    ensures MissingRequired(env)
      == IfUnset(env, ApiKeyVar) + IfUnset(env, SubaccountVar) + IfUnset(env, ForwardedVar)
  {
    var names := RequiredVars;
    assert names[1..] == [SubaccountVar, ForwardedVar];
    assert names[1..][1..] == [ForwardedVar];
    assert names[1..][1..][1..] == [];
    calc {
      Unset(env, names);
      IfUnset(env, ApiKeyVar) + Unset(env, names[1..]);
      IfUnset(env, ApiKeyVar) + (IfUnset(env, SubaccountVar) + Unset(env, names[1..][1..]));
      IfUnset(env, ApiKeyVar) + (IfUnset(env, SubaccountVar) + (IfUnset(env, ForwardedVar) + []));
    }
  }

  /** The items the action webhook reports missing: the unset required
      variables, then the destination of the event when it is falsy. */
  function ActionMissing(env: Env, virtualNumber: Json): (r: seq<string>)
    ensures r == [] <==>
      IsSet(env, ApiKeyVar) && IsSet(env, SubaccountVar) && IsSet(env, ForwardedVar) && Truthy(virtualNumber)
    ensures forall x :: x in r <==>
      (x in RequiredVars && !IsSet(env, x)) || (x == VirtualNumberItem && !Truthy(virtualNumber))
  {
    MissingRequired(env) + (if Truthy(virtualNumber) then [] else [VirtualNumberItem])
  }
}
