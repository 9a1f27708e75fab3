/** The dataclasses of the top-level `models.py`, the input of the earlier scheduler.  Its enums
    have integer values and that scheduler compares fields with the enum members themselves. */
module Models {
  import opened PyDict
  import opened Kwargs

  /** `ActivityConditionOption.NAME` and `ActivityConditionOptionType.NAME`. */
  function OptionMember(name: string): Tag { Member("ActivityConditionOption", name) }
  function OptionTypeMember(name: string): Tag { Member("ActivityConditionOptionType", name) }

  datatype Condition = Condition(scope: Tag, option: Tag, optionType: Tag, mandatory: bool, args: Dict<string, Value>)

  datatype Room = Room(id: int, name: string, floor: int, conditions: seq<Condition>)

  datatype ActivityRoom = ActivityRoom(room: Room, duration: int)

  datatype Activity = Activity(id: int, name: string, conditions: seq<Condition>, rooms: seq<ActivityRoom>)

  datatype Assessment = Assessment(id: int, name: string, activities: seq<Activity>, quantity: int)

  datatype Client = Client(id: int, assessment: Assessment)
}
