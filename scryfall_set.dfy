/**
 * ScryfallSet.java: a set, read from its set record, with a registry of its
 * printings keyed by printing id.  The registry starts empty; printing(p)
 * registers p and answers the set.
 */
module ScryfallSets {
  import opened Base
  import ApiCard

  /** The set record may be null (the registry of set records is consulted with get). */
  datatype ScryfallSet<P> = ScryfallSet(setJson: Option<ApiCard.Set>, printings: map<ApiCard.Uuid, P>)

  /** new ScryfallSet(setJson) */
  function New<P>(setJson: Option<ApiCard.Set>): (s: ScryfallSet<P>)
    ensures s.setJson == setJson && s.printings == map[]
  {
    ScryfallSet(setJson, map[])
  }

  /** name(): the record's name; a null record throws. */
  function Name<P>(s: ScryfallSet<P>): (r: Result<Option<string>>)
    ensures r.Err? <==> s.setJson.None?
    ensures r.Ok? ==> r.value == s.setJson.value.name
  {
    if s.setJson.None? then Err(NullPointer) else Ok(s.setJson.value.name)
  }

  /** code(): the record's code; a null record throws. */
  function Code<P>(s: ScryfallSet<P>): (r: Result<Option<string>>)
    ensures r.Err? <==> s.setJson.None?
    ensures r.Ok? ==> r.value == s.setJson.value.code
  {
    if s.setJson.None? then Err(NullPointer) else Ok(s.setJson.value.code)
  }

  /** printing(id): the printing registered under id, or null. */
  function PrintingById<P>(s: ScryfallSet<P>, id: ApiCard.Uuid): (r: Option<P>)
    ensures r.Some? <==> id in s.printings
    ensures r.Some? ==> r.value == s.printings[id]
  {
    if id in s.printings then Some(s.printings[id]) else None
  }

  /** printing(p), for a printing p whose id() is id: p is registered under id, replacing what was there. */
  function AddPrinting<P>(s: ScryfallSet<P>, id: ApiCard.Uuid, p: P): (r: ScryfallSet<P>)
    ensures r.setJson == s.setJson
    ensures r.printings.Keys == s.printings.Keys + {id}
  {
    s.(printings := s.printings[id := p])
  }

  /** After printing(p), printing(id) answers p, and every other id answers as before. */
  lemma AddThenLookup<P>(s: ScryfallSet<P>, id: ApiCard.Uuid, p: P, other: ApiCard.Uuid)
    ensures PrintingById(AddPrinting(s, id, p), id) == Some(p)
    ensures other != id ==> PrintingById(AddPrinting(s, id, p), other) == PrintingById(s, other)
    ensures Name(AddPrinting(s, id, p)) == Name(s) && Code(AddPrinting(s, id, p)) == Code(s)
  {
  }
}
