/**
 * The parameters of a database statement that uses indexed (positional)
 * parameters: an ordered list that can be replaced, replaced from a mapped
 * object, or appended to; every named-parameter operation is refused.
 */
module DbClient {
  /** The message every named-parameter operation fails with. */
  const CantUseIndexedParams: string := "This is a statement with indexed parameters, cannot use named parameters."

  datatype DbClientException = DbClientException(message: string)

  /** The named-parameter operations, by their arguments. */
  datatype NamedOperation<V> =
    | ParamsMap(parameters: map<string, V>)
    | NamedParam(object: V)
    | AddNamedParam(name: string, parameter: V)
    | NamedParams

  class IndexedStatementParameters<V> {
    /** The parameters, in statement order. */
    var parameters: seq<V>
    /** The mapper manager's conversion of an object into indexed parameters. */
    const toIndexedParameters: V -> seq<V>

    constructor (toIndexedParameters: V -> seq<V>)
      ensures parameters == [] && this.toIndexedParameters == toIndexedParameters
    {
      parameters := [];
      this.toIndexedParameters := toIndexedParameters;
    }

    /**
     * params(List): the previous parameters are cleared and the list's
     * elements are added after one another, as addParam would add them, so
     * the list becomes the parameters, in order.
     */
    method Params(list: seq<V>) returns (self: IndexedStatementParameters<V>)
      modifies this`parameters
      ensures self == this
      ensures parameters == list
    {
      parameters := [];
      var i := 0;
      while i < |list|
        invariant 0 <= i <= |list|
        invariant parameters == Appended([], list[..i])
      {
        AppendedIsConcatenation([], list[..i]);
        AppendedIsConcatenation([], list[..i + 1]);
        assert list[..i + 1] == list[..i] + [list[i]];
        parameters := parameters + [list[i]];
        i := i + 1;
      }
      AppendedIsConcatenation([], list);
      assert list[..|list|] == list;
      self := this;
    }

    /** indexedParam: the parameters become what the mapper manager makes of the object. */
    method IndexedParam(x: V) returns (self: IndexedStatementParameters<V>)
      modifies this`parameters
      ensures self == this
      ensures parameters == toIndexedParameters(x)
    {
      var mapped := toIndexedParameters(x);
      self := Params(mapped);
    }

    method IndexedParams() returns (r: seq<V>)
      ensures r == parameters
    {
      r := parameters;
    }

    /** addParam(Object): x goes at the end; the earlier parameters stay as they were. */
    method AddParam(x: V) returns (self: IndexedStatementParameters<V>)
      modifies this`parameters
      ensures self == this
      ensures |parameters| == |old(parameters)| + 1
      ensures parameters[..|old(parameters)|] == old(parameters) && parameters[|old(parameters)|] == x
    {
      parameters := parameters + [x];
      self := this;
    }

    /** params(Map), namedParam, addParam(String, Object) and namedParams: always refused, changing nothing. */
    method Named(op: NamedOperation<V>) returns (e: DbClientException)
      ensures e == DbClientException(CantUseIndexedParams)
    {
      e := DbClientException(CantUseIndexedParams);
    }
  }

  /** The parameters after addParam is called with each of xs in turn, starting from s. */
  function Appended<V>(s: seq<V>, xs: seq<V>): seq<V>
    decreases |xs|
  {
    if xs == [] then s else Appended(s + [xs[0]], xs[1..])
  }

  /** Adding the elements one at a time gives the whole list appended in order. */
  lemma {:induction false} AppendedIsConcatenation<V>(s: seq<V>, xs: seq<V>)
    ensures Appended(s, xs) == s + xs
    decreases |xs|
  {
    if xs != [] {
      AppendedIsConcatenation(s + [xs[0]], xs[1..]);
      assert s + [xs[0]] + xs[1..] == s + xs;
    }
  }

  /**
   * A chained build: addParam(a), then params(list), then addParam(b).
   * Every call hands back the same object, and the replacement discards
   * what was added before it.
   */
  method Chain<V>(p: IndexedStatementParameters<V>, a: V, list: seq<V>, b: V) returns (r: seq<V>)
    modifies p`parameters
    ensures r == list + [b] && p.parameters == r
  {
    var q := p.AddParam(a);
    q := q.Params(list);
    q := q.AddParam(b);
    assert q.parameters == list + [b];
    r := p.IndexedParams();
  }
}
