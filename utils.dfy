/** The shared action types of src/lib/utils.ts. */
module Utils {

  /** `typeModalAction`: the two actions a row can ask the modal to confirm. */
  datatype ActionType = Update | Delete

  /** `DataUpdateProps`: which item an action is about, and which action. */
  datatype DataUpdate = DataUpdate(id: string, kind: ActionType)
}
