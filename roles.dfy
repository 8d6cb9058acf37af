/** A member's role in a group, the `group_role` enum of the store. */
module Roles {

  datatype Role = Admin | Member
}
