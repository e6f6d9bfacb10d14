/** The `Category` model: the record and what makes a category table well
    formed. */
module CategoryModel {
  import opened Storage

  /** One row of the `categories` table: `name` is NOT NULL, `description`
      is nullable. The timestamps are left out. */
  datatype Category = Category(id: Uuid, name: string, description: Option<string>)

  /** `id` is the primary key: each row is stored under its own id. */
  ghost predicate CategoryTableKeyed(categories: map<Uuid, Category>)
  {
    forall id :: id in categories ==> categories[id].id == id
  }
}
