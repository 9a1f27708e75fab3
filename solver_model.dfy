/** The dataclasses and enums of `src/models/solver_model.py`, the input of the current
    scheduler.  Enum-typed fields are `Tag`s: the scheduler compares them with the enum's
    `.value` strings. */
module SolverModel {
  import opened PyDict
  import opened Kwargs

  /** `Enum.NAME.value` for the string-valued enums of this file, whose values equal their names. */
  function ValueOf(name: string): Tag { Raw(StrV(name)) }

  datatype Condition = Condition(scope: Tag, option: Tag, optionType: Tag, args: Dict<string, Value>)

  datatype Room = Room(id: int, name: string, floor: int, conditions: seq<Condition>)

  datatype ActivityRoom = ActivityRoom(room: Room, duration: int)

  datatype Activity = Activity(id: int, name: string, conditions: seq<Condition>, rooms: seq<ActivityRoom>)

  datatype Assessment = Assessment(id: int, name: string, activities: seq<Activity>, quantity: int)

  datatype Client = Client(id: int, assessment: Assessment)
}
