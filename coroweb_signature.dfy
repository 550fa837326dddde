/**
 * The signature classifiers of the web layer: which keyword parameters a handler function
 * declares, whether it takes `**kw`, and where its `request` parameter sits; plus the
 * `get` / `post` decorators that tag a handler with its method and route.
 */
module CorowebSignature {
  import opened Wrappers
  import opened Values

  /** The five kinds of `inspect.Parameter`. */
  datatype ParamKind = PositionalOnly | PositionalOrKeyword | VarPositional | KeywordOnly | VarKeyword

  datatype Param = Param(name: string, kind: ParamKind, hasDefault: bool)

  /** A signature: its parameters in declaration order. */
  type Signature = seq<Param>

  /**
   * A handler function: its name, its signature, and its `__method__` / `__route__`
   * attributes (`Null` when the attribute is absent).
   */
  datatype Func = Func(name: string, params: Signature, httpMethod: Value, route: Value)

  datatype SignatureError = RequestNotLast(fn: string)

  /** `get(path)(fn)`: a wrapper with `fn`'s name and signature, tagged `GET` and `path`. */
  function Get(path: string, fn: Func): (w: Func)
    ensures w.httpMethod == Str("GET") && w.route == Str(path)
    ensures w.name == fn.name && w.params == fn.params
  {
    Func(fn.name, fn.params, Str("GET"), Str(path))
  }

  /** `post(path)(fn)`: a wrapper with `fn`'s name and signature, tagged `POST` and `path`. */
  function Post(path: string, fn: Func): (w: Func)
    ensures w.httpMethod == Str("POST") && w.route == Str(path)
    ensures w.name == fn.name && w.params == fn.params
  {
    Func(fn.name, fn.params, Str("POST"), Str(path))
  }

  /** `a` is `b` with some elements left out, order kept. */
  predicate IsSubsequence<T(==)>(a: seq<T>, b: seq<T>)
    decreases |b|
  {
    if |a| == 0 then true
    else if |b| == 0 then false
    else if a[0] == b[0] then IsSubsequence(a[1..], b[1..])
    else IsSubsequence(a, b[1..])
  }

  /** The parameter names of a signature, in order. */
  function Names(ps: Signature): (r: seq<string>)
    ensures |r| == |ps| && forall i :: 0 <= i < |ps| ==> r[i] == ps[i].name
  {
    if |ps| == 0 then [] else [ps[0].name] + Names(ps[1..])
  }

  /** `get_named_kw_args`: the keyword-only parameters, in signature order. */
  function NamedKwArgs(ps: Signature): (r: seq<string>)
    ensures forall n :: n in r <==> exists i :: 0 <= i < |ps| && ps[i].name == n && ps[i].kind == KeywordOnly
    ensures IsSubsequence(r, Names(ps))
  {
    if |ps| == 0 then []
    else
      var rest := NamedKwArgs(ps[1..]);
      assert forall i :: 0 < i < |ps| ==> ps[i] == ps[1..][i - 1];
      assert Names(ps)[1..] == Names(ps[1..]);
      if ps[0].kind == KeywordOnly then
        [ps[0].name] + rest
      else
        SubsequenceSkip(rest, Names(ps));
        rest
  }

  /** `get_required_kw_args`: the keyword-only parameters without a default, in signature order. */
  function RequiredKwArgs(ps: Signature): (r: seq<string>)
    ensures forall n :: n in r <==>
      exists i :: 0 <= i < |ps| && ps[i].name == n && ps[i].kind == KeywordOnly && !ps[i].hasDefault
  {
    if |ps| == 0 then []
    else
      var rest := RequiredKwArgs(ps[1..]);
      assert forall i :: 0 < i < |ps| ==> ps[i] == ps[1..][i - 1];
      if ps[0].kind == KeywordOnly && !ps[0].hasDefault then [ps[0].name] + rest else rest
  }

  /** `has_named_kw_args`: some parameter is keyword-only. */
  function HasNamedKwArgs(ps: Signature): (r: bool)
    ensures r <==> exists i :: 0 <= i < |ps| && ps[i].kind == KeywordOnly
  {
    if |ps| == 0 then false
    else
      assert forall i :: 0 < i < |ps| ==> ps[i] == ps[1..][i - 1];
      ps[0].kind == KeywordOnly || HasNamedKwArgs(ps[1..])
  }

  /** `has_var_kw_arg`: some parameter is `**kw`. */
  function HasVarKwArg(ps: Signature): (r: bool)
    ensures r <==> exists i :: 0 <= i < |ps| && ps[i].kind == VarKeyword
  {
    if |ps| == 0 then false
    else
      assert forall i :: 0 < i < |ps| ==> ps[i] == ps[1..][i - 1];
      ps[0].kind == VarKeyword || HasVarKwArg(ps[1..])
  }

  /** The kinds allowed after `request`: `*args`, keyword-only and `**kw`. */
  predicate MayFollowRequest(k: ParamKind)
  {
    k == VarPositional || k == KeywordOnly || k == VarKeyword
  }

  /** A parameter other than `request` that no parameter named `request` may precede. */
  predicate Blocks(p: Param)
  {
    p.name != "request" && !MayFollowRequest(p.kind)
  }

  /** The scan of `has_request_arg`, with `found` recording whether `request` was already seen. */
  function RequestScan(name: string, ps: Signature, found: bool): Result<bool, SignatureError>
  {
    if |ps| == 0 then Ok(found)
    else if ps[0].name == "request" then RequestScan(name, ps[1..], true)
    else if found && !MayFollowRequest(ps[0].kind) then Err(RequestNotLast(name))
    else RequestScan(name, ps[1..], found)
  }

  /** `has_request_arg(fn)`. */
  function HasRequestArg(fn: Func): Result<bool, SignatureError>
  {
    RequestScan(fn.name, fn.params, false)
  }

  /** Some parameter named `request` comes before a parameter that may not follow it. */
  predicate RequestMisplaced(ps: Signature)
  {
    exists i, j :: 0 <= i < j < |ps| && ps[i].name == "request" && Blocks(ps[j])
  }

  /** Some parameter is named `request`. */
  predicate DeclaresRequest(ps: Signature)
  {
    exists i :: 0 <= i < |ps| && ps[i].name == "request"
  }

  lemma {:induction false} RequestScanMeaning(name: string, ps: Signature, found: bool)
    ensures RequestScan(name, ps, found).Err? <==>
      (exists j :: 0 <= j < |ps| && Blocks(ps[j]) && (found || exists i :: 0 <= i < j && ps[i].name == "request"))
    ensures RequestScan(name, ps, found).Err? ==> RequestScan(name, ps, found).error == RequestNotLast(name)
    ensures RequestScan(name, ps, found).Ok? ==> (RequestScan(name, ps, found).value <==> found || DeclaresRequest(ps))
  {
    if |ps| > 0 {
      var tail := ps[1..];
      assert forall i :: 0 < i < |ps| ==> ps[i] == tail[i - 1];
      var found' := found || ps[0].name == "request";
      RequestScanMeaning(name, tail, found');
      if RequestScan(name, ps, found).Err? {
        if !(found && Blocks(ps[0])) {
          var j :| 0 <= j < |tail| && Blocks(tail[j]) && (found' || exists i :: 0 <= i < j && tail[i].name == "request");
          if !found' {
            var i :| 0 <= i < j && tail[i].name == "request";
            assert ps[i + 1].name == "request";
          }
          assert Blocks(ps[j + 1]);
        }
      } else {
        forall j | 0 <= j < |ps| && Blocks(ps[j])
          ensures !(found || exists i :: 0 <= i < j && ps[i].name == "request")
        {
          if j == 0 {
          } else {
            assert Blocks(tail[j - 1]);
            forall i | 0 <= i < j ensures ps[i].name != "request" {
              if i > 0 { assert tail[i - 1] == ps[i]; }
            }
          }
        }
        if DeclaresRequest(ps) && !found' {
          var i :| 0 <= i < |ps| && ps[i].name == "request";
          assert tail[i - 1].name == "request";
        }
      }
    }
  }

  /**
   * `has_request_arg` raises `ValueError` exactly when a parameter named `request` is
   * followed by one that is not `*args`, keyword-only or `**kw`; otherwise it answers
   * whether `request` is declared.
   */
  lemma HasRequestArgMeaning(fn: Func)
    ensures HasRequestArg(fn).Err? <==> RequestMisplaced(fn.params)
    ensures HasRequestArg(fn).Err? ==> HasRequestArg(fn).error == RequestNotLast(fn.name)
    ensures HasRequestArg(fn).Ok? ==> (HasRequestArg(fn).value <==> DeclaresRequest(fn.params))
  {
    RequestScanMeaning(fn.name, fn.params, false);
  }

  lemma {:induction false} SubsequenceSkip<T>(a: seq<T>, b: seq<T>)
    requires |b| > 0 && IsSubsequence(a, b[1..])
    ensures IsSubsequence(a, b)
    decreases |b|
  {
    if |a| > 0 && a[0] == b[0] {
      SubsequenceTail(a, b[1..]);
      SubsequenceSkip(a[1..], b[1..]);
    }
  }

  lemma {:induction false} SubsequenceTail<T>(a: seq<T>, b: seq<T>)
    requires |a| > 0 && IsSubsequence(a, b)
    ensures IsSubsequence(a[1..], b[1..])
    decreases |b|
  {
    if a[0] != b[0] {
      SubsequenceTail(a, b[1..]);
      SubsequenceSkip(a[1..], b[1..]);
    }
  }

  /** The required keyword arguments are a subsequence of the named ones: fewer, same order. */
  lemma {:induction false} RequiredAreNamed(ps: Signature)
    ensures IsSubsequence(RequiredKwArgs(ps), NamedKwArgs(ps))
  {
    if |ps| > 0 {
      RequiredAreNamed(ps[1..]);
      if ps[0].kind == KeywordOnly && ps[0].hasDefault {
        SubsequenceSkip(RequiredKwArgs(ps[1..]), NamedKwArgs(ps));
      }
    }
  }

  /** `has_named_kw_args` holds exactly when `get_named_kw_args` is not empty. */
  lemma NamedKwArgsPresent(ps: Signature)
    ensures HasNamedKwArgs(ps) <==> |NamedKwArgs(ps)| > 0
  {
    if HasNamedKwArgs(ps) {
      var i :| 0 <= i < |ps| && ps[i].kind == KeywordOnly;
      assert ps[i].name in NamedKwArgs(ps);
    }
  }
}
