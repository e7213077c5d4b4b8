/** The persistent state the product service reads and writes: the product,
    folder and product-folder tables, with the lookups the repositories derive
    from their method names. */
module Store {
  import opened Entities
  import opened ResponseDto

  /** The three tables. `links` lists the association rows in the order they
      were saved; `nextId` is the id the product table assigns to the next
      product it saves. */
  datatype Db = Db(products: map<int, Product>, folders: map<int, Folder>,
                   links: seq<ProductFolder>, nextId: int)

  /** No association row occurs twice. */
  predicate Distinct(links: seq<ProductFolder>) {
    forall i, j :: 0 <= i < j < |links| ==> links[i] != links[j]
  }

  /** Every association row links an existing product and an existing folder
      that belong to the same user. */
  predicate SameOwnerLinks(db: Db) {
    forall pf :: pf in db.links ==>
      pf.productId in db.products && pf.folderId in db.folders &&
      db.products[pf.productId].ownerId == db.folders[pf.folderId].ownerId
  }

  /** The store invariant: records sit under their own ids, every product id
      is below the next one to be assigned, links are cross-user free and unique. */
  predicate Valid(db: Db) {
    (forall id :: id in db.products ==> db.products[id].id == id && id < db.nextId) &&
    (forall id :: id in db.folders ==> db.folders[id].id == id) &&
    SameOwnerLinks(db) &&
    Distinct(db.links)
  }

  /** `product.getProductFolderList()`: the product's association rows, in table order. */
  function ProductLinks(links: seq<ProductFolder>, productId: int): (r: seq<ProductFolder>)
    ensures forall pf :: pf in r <==> pf in links && pf.productId == productId
    ensures |r| <= |links|
    ensures (forall pf :: pf in links ==> pf.productId != productId) ==> r == []
    ensures Distinct(links) ==> Distinct(r)
  {
    if links == [] then []
    else
      var last := links[|links| - 1];
      ProductLinks(links[..|links| - 1], productId) + (if last.productId == productId then [last] else [])
  }

  /** In a store without duplicate rows a row that is present is counted exactly once. */
  lemma {:induction false} DistinctOnce(links: seq<ProductFolder>, pf: ProductFolder)
    requires Distinct(links)
    requires pf in links
    ensures multiset(links)[pf] == 1
  {
    assert links == [links[0]] + links[1..];
    if links[0] == pf {
      forall j | 0 <= j < |links| - 1 ensures links[1..][j] != pf {
        assert links[1..][j] == links[j + 1];
      }
      assert pf !in links[1..];
    } else {
      DistinctOnce(links[1..], pf);
    }
  }

  /** The view the service returns for the stored product `id`. */
  function ViewOf(db: Db, id: int): ProductView
    requires Valid(db) && id in db.products
  {
    View(db.products[id], ProductLinks(db.links, id), db.folders)
  }

  /** `ProductRepository.findAll`: every product. */
  function FindAll(db: Db): set<int> {
    db.products.Keys
  }

  /** `ProductRepository.findAllByUser`: the products the user owns. */
  function FindAllByUser(db: Db, user: User): set<int> {
    set id | id in db.products && db.products[id].ownerId == user.id
  }

  /** `ProductRepository.findAllByUserAndProductFolderList_FolderId`: the products
      the user owns that have an association row with folder `folderId`. */
  function FindAllByUserAndFolderId(db: Db, user: User, folderId: int): set<int> {
    set id | id in db.products && db.products[id].ownerId == user.id &&
             ProductFolder(id, folderId) in db.links
  }
}
