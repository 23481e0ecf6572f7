/** The marketplace's record types: the closed category enumeration and the
    listing record (src/types.ts). They carry no behaviour of their own. */
module Types {

  /** A value that may be absent; stands for the source's `T | null`. */
  datatype Option<+T> = None | Some(value: T)

  /** The five listing categories, closed and without sub-hierarchy. */
  datatype Category = RealEstate | Factories | HeavyEquipment | Cars | Uber

  /** The optional new/used condition of an item. */
  datatype Condition = New | Used

  /** One marketplace item. `price` is the source's JavaScript number, kept
      as an integer here; `specs` maps specification keys to values. */
  datatype Listing = Listing(
    id: string,
    title: string,
    price: int,
    currency: string,
    category: Category,
    location: string,
    imageUrl: string,
    description: string,
    createdAt: string,
    condition: Option<Condition>,
    specs: Option<map<string, string>>
  )
}
