/** The outbound request: the variables the callback agent is given and will echo. */
module Outbound {
  import opened Schema
  import opened CallIds
  import opened Transactions
  import opened Coercion
  import opened Phone

  datatype Entry = Entry(name: string, value: Value)

  /** A dict: names are distinct. */
  predicate IsDict(context: seq<Entry>) {
    forall i, j :: 0 <= i < j < |context| ==> context[i].name != context[j].name
  }

  predicate Reserved(name: string) {
    name == "callback_id" || name == "call_id" || name == "phone"
  }

  predicate Carries(context: seq<Entry>, name: string, text: string) {
    exists i :: 0 <= i < |context| && context[i].name == name && AsVariable(context[i].value) == Some(text)
  }

  predicate Assigned(variables: map<string, string>, name: string, text: string) {
    name in variables && variables[name] == text
  }

  /** Every context value that flattens to something, under its own name, except that the
      three identity variables always win. */
  method AgentVariables(context: seq<Entry>, callbackId: nat, callId: string, phone: string)
    returns (variables: map<string, string>)
    requires IsDict(context)
    ensures "callback_id" in variables && variables["callback_id"] == Decimal(callbackId)
    ensures "call_id" in variables && variables["call_id"] == callId
    ensures "phone" in variables && variables["phone"] == E164(phone)
    ensures forall name, text :: !Reserved(name) ==>
              (Assigned(variables, name, text) <==> Carries(context, name, text))
  {
    variables := map[];
    for n := 0 to |context|
      invariant forall name :: name in variables ==> exists i :: 0 <= i < n && context[i].name == name
      invariant forall name, text :: Assigned(variables, name, text) <==> Carries(context[..n], name, text)
    {
      ghost var before := variables;
      var flattened := AsVariable(context[n].value);
      if flattened.Some? {
        variables := variables[context[n].name := flattened.value];
      }
      forall name, text
        ensures Assigned(variables, name, text) <==> Carries(context[..n + 1], name, text)
      {
        CarriesOneMore(context, n, name, text);
        if context[n].name == name {
          assert !Carries(context[..n], name, text);
        }
      }
    }
    assert context[..|context|] == context;
    variables := variables["callback_id" := Decimal(callbackId)];
    variables := variables["call_id" := callId];
    variables := variables["phone" := E164(phone)];
  }

  lemma CarriesOneMore(context: seq<Entry>, n: nat, name: string, text: string)
    requires n < |context|
    ensures Carries(context[..n + 1], name, text)
       <==> Carries(context[..n], name, text)
            || (context[n].name == name && AsVariable(context[n].value) == Some(text))
  {
    var shorter, longer := context[..n], context[..n + 1];
    if Carries(longer, name, text) {
      var i :| 0 <= i < |longer| && longer[i].name == name && AsVariable(longer[i].value) == Some(text);
      if i < n { assert shorter[i] == longer[i]; }
    }
    if i :| 0 <= i < |shorter| && shorter[i].name == name && AsVariable(shorter[i].value) == Some(text) {
      assert longer[i] == shorter[i];
    }
    if context[n].name == name && AsVariable(context[n].value) == Some(text) {
      assert longer[n] == context[n];
    }
  }

  /** place_call: the id minted for the request is both what the agent echoes and what a
      placed dial is recorded under. */
  method PlaceCall(callbackId: nat, phone: string, context: seq<Entry>, nonce: string, response: DialResponse)
    returns (variables: map<string, string>, result: DialResult)
    requires IsDict(context)
    ensures "call_id" in variables && MintedFor(variables["call_id"], callbackId)
    ensures "callback_id" in variables && variables["call_id"] == "cb-" + variables["callback_id"] + "-" + nonce
    ensures Answers(response, variables["call_id"], result)
    ensures result == Transactions.PlaceCall(variables["call_id"], response)
    ensures result.success ==> Placed(result) && result.callId == Some(variables["call_id"])
    ensures "phone" in variables && variables["phone"] == E164(phone)
  {
    var callId := MintedId(callbackId, nonce);
    variables := AgentVariables(context, callbackId, callId, phone);
    match response {
      case Unconfigured =>
        result := Refused("sarvam_outbound_not_configured", false);
      case Unreachable =>
        result := Refused("sarvam_outbound_unreachable", true);
      case Http(status, attemptId) =>
        if status >= 500 || status == 429 {
          result := Refused("sarvam_outbound_unavailable", true);
        } else if status == 402 {
          result := Refused("sarvam_outbound_insufficient_balance", true);
        } else if status >= 400 {
          result := Refused("sarvam_outbound_rejected", false);
        } else if attemptId.None? || attemptId.value == "" {
          result := Refused("sarvam_outbound_no_call_id", false);
        } else {
          result := DialResult(true, Some(callId), attemptId, None, false);
        }
    }
  }

  /** The list-valued variables of a callback agent come back as the lists they were, when
      they were produced by split_list from a string. */
  lemma FeaturesSurviveDial(features: string, context: seq<Entry>, variables: map<string, string>, name: string)
    requires IsDict(context) && !Reserved(name)
    requires exists i :: 0 <= i < |context| && context[i] == Entry(name, SplitList(Str(features)))
    requires forall text :: Assigned(variables, name, text) <==> Carries(context, name, text)
    ensures SplitList(if name in variables then Str(variables[name]) else Null) == SplitList(Str(features))
  {
    assert name in variables ==> Assigned(variables, name, variables[name]);
    var i :| 0 <= i < |context| && context[i] == Entry(name, SplitList(Str(features)));
    var flattened := AsVariable(SplitList(Str(features)));
    if flattened.Some? {
      assert Carries(context, name, flattened.value);
      assert Assigned(variables, name, flattened.value);
    }
    StringSurvivesEcho(features);
  }
}
