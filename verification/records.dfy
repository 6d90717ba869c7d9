/**
 The records the messaging platform's client library hands back, reduced
 to the attributes the sync reads.
 */
module Records {
  import opened Wrappers
  import opened Values

  /** A source datetime, known only through its `isoformat()` rendering. */
  datatype DateTime = DateTime(iso: string)

  /** A reference to another object: a contact's group, a run's flow or contact, a flow's label. */
  datatype ObjectRef = ObjectRef(uuid: string, name: string)

  datatype Group = Group(uuid: string, name: string)

  datatype Flow = Flow(uuid: string, name: string, labels: seq<ObjectRef>)

  /**
   A contact. `fields` is the contact's custom-field dictionary in its
   iteration order; a value the platform stores as a number with a fraction
   is not representable here.
   */
  datatype Contact = Contact(
    uuid: string,
    modifiedOn: DateTime,
    groups: seq<ObjectRef>,
    fields: seq<(string, Scalar)>
  )

  /** One flow result recorded on a run. */
  datatype RunValue = RunValue(
    value: Scalar,
    category: Option<string>,
    time: DateTime,
    name: string,
    input: Option<string>
  )

  /**
   A flow run. `values` lists the values of the run's result dictionary in
   its iteration order; the dictionary's keys are never read.
   */
  datatype Run = Run(
    id: int,
    flow: ObjectRef,
    contact: ObjectRef,
    responded: bool,
    createdOn: DateTime,
    modifiedOn: DateTime,
    exitedOn: Option<DateTime>,
    exitType: Option<string>,
    values: seq<RunValue>
  )

  /** An optional string as a JSON value: Python's `None` or the string. */
  function OptStr(o: Option<string>): (v: Value)
    ensures v.Null? <==> o.None?
    ensures o.Some? ==> v == Str(o.value)
  {
    match o
    case None => Null
    case Some(s) => Str(s)
  }
}
