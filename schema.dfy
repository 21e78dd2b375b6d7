/** Record shapes of the `data` table (lib/supabase.ts) and the small
    wrappers the rest of the model uses for nullable values and for the
    outcome of a call to the hosted store. */
module Schema {

  /** A nullable or optional value (`T | null` in the source). */
  datatype Option<+T> = None | Some(value: T) {
    function GetOr(default: T): (r: T)
      ensures Some? ==> r == value
      ensures None? ==> r == default
    {
      match this
      case Some(v) => v
      case None => default
    }
  }

  /** The closed enumeration `'context' | 'issue' | 'inquiry' | 'product'`. */
  datatype DataType = Context | Issue | Inquiry | Product

  /** `Record<string, any>`: keys mapped to opaque, already-serialised values. */
  type Metadata = map<string, string>

  /** A persisted row of the `data` table. Ids and timestamps are opaque strings. */
  datatype DataItem = DataItem(
    id: string,
    title: string,
    description: Option<string>,
    content: Option<string>,
    fileUrl: Option<string>,
    fileName: Option<string>,
    fileSize: Option<int>,
    kind: DataType,
    tags: seq<string>,
    metadata: Metadata,
    userId: string,
    projectId: string,
    createdAt: string,
    updatedAt: string)

  /** The insert payload without its owner (`Omit<DataInsert, 'user_id'>`);
      the store assigns id and timestamps. */
  datatype NewData = NewData(
    title: string,
    description: Option<string>,
    content: Option<string>,
    fileUrl: Option<string>,
    fileName: Option<string>,
    fileSize: Option<int>,
    kind: DataType,
    tags: seq<string>,
    metadata: Metadata,
    projectId: string)

  /** A partial update: `None` leaves a column as it is; for a nullable
      column `Some(None)` sets it to null. */
  datatype DataUpdate = DataUpdate(
    id: Option<string>,
    title: Option<string>,
    description: Option<Option<string>>,
    content: Option<Option<string>>,
    fileUrl: Option<Option<string>>,
    fileName: Option<Option<string>>,
    fileSize: Option<Option<int>>,
    kind: Option<DataType>,
    tags: Option<seq<string>>,
    metadata: Option<Metadata>,
    userId: Option<string>,
    projectId: Option<string>,
    createdAt: Option<string>,
    updatedAt: Option<string>)

  /** What a call to the hosted store settles to: its result, or a failure
      whose thrown value carries a message when it is an `Error`. */
  datatype Remote<+T> = Ok(value: T) | Err(thrown: Option<string>)
}
