/**
 * `ValuesController` of the first Web API exercise: a static `List<string>` read,
 * appended to, overwritten and shrunk by index. The object below stands for that
 * static list; every action works on it one request at a time.
 */
module ValuesApi {
  import opened Text
  import opened Http
  import IdList

  const EmptyValueMessage := "Value cannot be empty"

  function NotFoundMessage(id: int): string {
    "Value with ID " + IntToText(id) + " not found"
  }

  /** `string.IsNullOrEmpty` on a request body that may be null. */
  predicate IsNullOrEmpty(value: Option<string>) {
    value.None? || value.value == ""
  }

  class ValuesController {
    /** The static `Values` list. */
    var values: seq<string>

    constructor ()
      ensures values == ["Value1", "Value2", "Value3"]
    {
      values := ["Value1", "Value2", "Value3"];
    }

    /** GET api/values: the whole list. */
    method GetAll() returns (r: ActionResult<seq<string>>)
      ensures r == Ok(values)
    {
      r := Ok(values);
    }

    /** GET api/values/{id}: the value at index id, or 404 when the index is out of range. */
    method Get(id: int) returns (r: ActionResult<string>)
      ensures r.Ok? <==> 0 <= id < |values|
      ensures r.Ok? ==> r.body == values[id]
      ensures !r.Ok? ==> r == NotFound(Some(NotFoundMessage(id)))
    {
      if id < 0 || id >= |values| {
        return NotFound(Some(NotFoundMessage(id)));
      }
      r := Ok(values[id]);
    }

    /** POST api/values: appends a non-empty value and reports the index it landed at. */
    method Post(value: Option<string>) returns (r: ActionResult<string>)
      modifies this
      ensures IsNullOrEmpty(value) ==>
        r == BadRequest(Some(EmptyValueMessage)) && values == old(values)
      ensures !IsNullOrEmpty(value) ==>
        values == old(values) + [value.value] && r == Created(|old(values)|, value.value)
      ensures r.Created? ==> |values| == |old(values)| + 1 && r.id == |values| - 1 && values[r.id] == r.body
    {
      if IsNullOrEmpty(value) {
        return BadRequest(Some(EmptyValueMessage));
      }
      values := values + [value.value];
      r := Created(|values| - 1, value.value);
    }

    /**
     * PUT api/values/{id}: the index is checked before the value, so an out-of-range
     * index is 404 even for an empty value; a successful update touches only index id.
     */
    method Put(id: int, value: Option<string>) returns (r: ActionResult<string>)
      modifies this
      ensures !(0 <= id < |old(values)|) ==>
        r == NotFound(Some(NotFoundMessage(id))) && values == old(values)
      ensures 0 <= id < |old(values)| && IsNullOrEmpty(value) ==>
        r == BadRequest(Some(EmptyValueMessage)) && values == old(values)
      ensures 0 <= id < |old(values)| && !IsNullOrEmpty(value) ==>
        r == Ok(value.value) && values == old(values)[id := value.value]
      ensures |values| == |old(values)|
      ensures forall j :: 0 <= j < |values| && j != id ==> values[j] == old(values)[j]
    {
      if id < 0 || id >= |values| {
        return NotFound(Some(NotFoundMessage(id)));
      }
      if IsNullOrEmpty(value) {
        return BadRequest(Some(EmptyValueMessage));
      }
      values := values[id := value.value];
      r := Ok(values[id]);
    }

    /** DELETE api/values/{id}: removes index id, shifting later values down; 404 when out of range. */
    method Delete(id: int) returns (r: ActionResult<()>)
      modifies this
      ensures 0 <= id < |old(values)| ==> r == NoContent && values == IdList.RemoveAt(old(values), id)
      ensures !(0 <= id < |old(values)|) ==>
        r == NotFound(Some(NotFoundMessage(id))) && values == old(values)
    {
      if id < 0 || id >= |values| {
        return NotFound(Some(NotFoundMessage(id)));
      }
      values := IdList.RemoveAt(values, id);
      r := NoContent;
    }
  }

  /** The 404 message names the id asked for, so different ids give different messages. */
  lemma NotFoundMessageNamesId(a: int, b: int)
    ensures NotFoundMessage(a) == NotFoundMessage(b) ==> a == b
  {
    if NotFoundMessage(a) == NotFoundMessage(b) {
      var p := "Value with ID ";
      var ta, tb := IntToText(a), IntToText(b);
      IdentifierInMessage(p, ta, " not found");
      IdentifierInMessage(p, tb, " not found");
      IntToTextInjective(a, b);
    }
  }

  /** Helper: the middle of prefix + t + suffix is t. */
  lemma IdentifierInMessage(p: string, t: string, q: string)
    ensures (p + t + q)[|p|..|p| + |t|] == t
  {
  }

  /** A client run: post, read back, overwrite, delete; each step sees the previous one. */
  method PostGetPutDelete(c: ValuesController, v: string, w: string)
    requires v != "" && w != ""
    modifies c
    ensures c.values == old(c.values)
  {
    var posted := c.Post(Some(v));
    var id := posted.id;
    var got := c.Get(id);
    assert got == Ok(v);
    var put := c.Put(id, Some(w));
    got := c.Get(id);
    assert got == Ok(w);
    var deleted := c.Delete(id);
    assert c.values == old(c.values);
  }
}
