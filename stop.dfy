/** A stop of a notebook: a timestamped place with a name, coordinates, notes and pictures. */
module Stops {
  import opened JavaValues

  /** A picture row; its contents are not part of this model. */
  type Picture(==)

  /** The values of all fields of a stop at one moment, in declaration order. */
  datatype StopFields = StopFields(
    pictureList: Option<seq<Picture>>,  // null until the hydrating constructor fills it
    unixTime: int64,                    // creation time, the primary key
    stopName: NullableString,
    parentUnixTime: int64,              // key of the notebook the stop belongs to
    latitude: Double,
    longitude: Double,
    notes: NullableString,
    time: int64                         // time shown to the user; starts as unixTime but may be changed
  )

  /** The fields of a stop before any constructor body has assigned them (Java's defaults). */
  const DEFAULT_FIELDS: StopFields := StopFields(None, 0, None, 0, ZERO, ZERO, None, 0)

  /** What the two synchronous view-model queries return: the stop rows by key, and the
      pictures whose parent is a given stop. */
  datatype ViewModel = ViewModel(
    stopsByUnixTime: map<int64, StopFields>,
    picturesByParentUnixTime: int64 -> seq<Picture>
  )

  class Stop {
    var pictureList: Option<seq<Picture>>
    var unixTime: int64
    var stopName: NullableString
    var parentUnixTime: int64
    var latitude: Double
    var longitude: Double
    var notes: NullableString
    var time: int64

    /** The current values of all fields. */
    function Fields(): StopFields
      reads this
    {
      StopFields(pictureList, unixTime, stopName, parentUnixTime, latitude, longitude, notes, time)
    }

    /** Creates a stop without the database: every argument goes to its field, `time` starts
        equal to `unixTime`, and there is no picture list. */
    constructor (unixTime: int64, stopName: NullableString, parentUnixTime: int64, notes: NullableString,
                 latitude: Double, longitude: Double)
      ensures Fields() == StopFields(None, unixTime, stopName, parentUnixTime, latitude, longitude, notes, unixTime)
      ensures this.time == this.unixTime
    {
      pictureList := None;
      this.unixTime := unixTime;
      this.stopName := stopName;
      this.parentUnixTime := parentUnixTime;
      this.notes := notes;
      this.latitude := latitude;
      this.longitude := longitude;
      this.time := unixTime;
    }

    /** Creates a stop from the database: the key is the argument, the other columns are copied
        from the stored row, and the picture list holds, in order, the pictures whose parent is
        the stored row's own key. The row must exist (the query result is dereferenced unchecked). */
    constructor FromDatabase(unixTime: int64, viewModel: ViewModel)
      requires unixTime in viewModel.stopsByUnixTime
      ensures var row := viewModel.stopsByUnixTime[unixTime];
        Fields() == StopFields(Some(viewModel.picturesByParentUnixTime(row.unixTime)), unixTime, row.stopName,
                               row.parentUnixTime, row.latitude, row.longitude, row.notes, row.time)
    {
      this.unixTime := unixTime;
      var databaseStop := viewModel.stopsByUnixTime[unixTime];
      stopName := databaseStop.stopName;
      parentUnixTime := databaseStop.parentUnixTime;
      notes := databaseStop.notes;
      longitude := databaseStop.longitude;
      latitude := databaseStop.latitude;
      time := databaseStop.time;
      pictureList := Some([]);
      new;
      pictureList := Some(pictureList.value + viewModel.picturesByParentUnixTime(databaseStop.unixTime));
      assert pictureList.value == viewModel.picturesByParentUnixTime(databaseStop.unixTime);
    }

    /** Creates a stop that knows only its key; every other field keeps its default. */
    constructor WithUnixTime(unixTime: int64)
      ensures Fields() == DEFAULT_FIELDS.(unixTime := unixTime)
    {
      pictureList, stopName, parentUnixTime, latitude, longitude, notes, time :=
        None, None, 0, ZERO, ZERO, None, 0;
      this.unixTime := unixTime;
    }

    method SetStopName(name: NullableString)
      modifies this`stopName
      ensures Fields() == old(Fields()).(stopName := name)
    {
      stopName := name;
    }

    method SetNotes(notes: NullableString)
      modifies this`notes
      ensures Fields() == old(Fields()).(notes := notes)
    {
      this.notes := notes;
    }

    method SetLocation(latitude: Double, longitude: Double)
      modifies this`latitude, this`longitude
      ensures Fields() == old(Fields()).(latitude := latitude, longitude := longitude)
    {
      this.latitude := latitude;
      this.longitude := longitude;
    }

    method SetParentUnixTime(parentUnixTime: int64)
      modifies this`parentUnixTime
      ensures Fields() == old(Fields()).(parentUnixTime := parentUnixTime)
    {
      this.parentUnixTime := parentUnixTime;
    }

    method SetLongitude(longitude: Double)
      modifies this`longitude
      ensures Fields() == old(Fields()).(longitude := longitude)
    {
      this.longitude := longitude;
    }

    method SetLatitude(latitude: Double)
      modifies this`latitude
      ensures Fields() == old(Fields()).(latitude := latitude)
    {
      this.latitude := latitude;
    }

    /** Changes the displayed time; the key `unixTime` stays, so the two may now differ. */
    method SetTime(time: int64)
      modifies this`time
      ensures Fields() == old(Fields()).(time := time)
      ensures unixTime == old(unixTime)
    {
      this.time := time;
    }

    /** The picture at `index`, or null when there is no list or the index is past its end.
        Without a list any index gives null; with one, a negative index is not guarded by the
        source, so callers must not pass one. */
    function PictureAtIndex(index: int32): (picture: Option<Picture>)
      reads this
      requires pictureList.Some? ==> 0 <= index
      ensures picture.Some? <==> pictureList.Some? && (index as int) < |pictureList.value|
      ensures picture.Some? ==> picture.value == pictureList.value[index]
    {
      if pictureList.Some? && (index as int) < |pictureList.value| then Some(pictureList.value[index]) else None
    }
  }
}
