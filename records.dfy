/** The two records the application keeps about the person using it. */
module Records {

  /** The signed-in user, as the mock authentication returns it. */
  datatype User = User(name: string, email: string)

  /** The editable user and farm profile. */
  datatype Profile = Profile(
    fullName: string,
    email: string,
    farmName: string,
    farmLocation: string,
    avatarUrl: string)

  /** The profile used when nothing usable is stored. */
  const DefaultProfile := Profile(
    "Alex Vause",
    "alex.vause@example.com",
    "Sunshine Farms",
    "Punjab, India",
    "https://picsum.photos/seed/123/100/100")
}
