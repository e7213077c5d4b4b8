/** The records the product service works on: users, products, folders, the
    product-folder association rows, the request payloads it receives and the
    error kinds it raises. */
module Entities {

  /** Java `int`: the type of the prices `lprice` and `myprice`. */
  newtype int32 = x: int | -0x8000_0000 <= x < 0x8000_0000

  /** `UserRoleEnum`: an ordinary user, or the elevated role that sees every product. */
  datatype Role = USER | ADMIN

  /** The caller of a service operation; only its id and role are consulted. */
  datatype User = User(id: int, role: Role)

  /** Body of `ProductRequestDto`: what a user submits to start tracking a product. */
  datatype ProductRequest = ProductRequest(title: string, link: string, image: string, lprice: int32)

  /** Body of `ProductMypriceRequestDto`: the new target price. */
  datatype MypriceRequest = MypriceRequest(myprice: int32)

  /** `ItemDto`: one item as reported by the external product search. */
  datatype Item = Item(title: string, link: string, image: string, lprice: int32)

  /** A tracked product. `ownerId` is the id of the owning user. */
  datatype Product = Product(id: int, title: string, link: string, image: string,
                             lprice: int32, myprice: int32, ownerId: int)
  {
    /** `product.update(requestDto)`: sets the target price. */
    function Update(req: MypriceRequest): (p: Product)
      ensures p.id == id && p.ownerId == ownerId
    {
      this.(myprice := req.myprice)
    }

    /** `product.updateByItemDto(itemDto)`: refreshes the display fields from a search item. */
    function UpdateByItem(item: Item): (p: Product)
      ensures p.id == id && p.ownerId == ownerId
    {
      this.(title := item.title, link := item.link, image := item.image, lprice := item.lprice)
    }
  }

  /** `new Product(requestDto, user)` under the id the store assigns; the target
      price starts at 0, the value of a Java `int` field nobody assigns. */
  function NewProduct(id: int, req: ProductRequest, user: User): (p: Product)
    ensures p.id == id && p.ownerId == user.id
  {
    Product(id, req.title, req.link, req.image, req.lprice, 0, user.id)
  }

  /** A user-defined folder. */
  datatype Folder = Folder(id: int, name: string, ownerId: int)

  /** One row of the association table: "product `productId` is filed under folder `folderId`". */
  datatype ProductFolder = ProductFolder(productId: int, folderId: int)

  /** The exceptions the service throws, by kind:
      `IllegalArgumentException`, `ProductNotFoundException`, `NullPointerException`. */
  datatype Error = InvalidArgument | ProductNotFound | NotFound

  datatype Result<+T> = Ok(value: T) | Err(error: Error)

  /** The outcome of a `void` operation. */
  datatype Outcome = Pass | Fail(error: Error)
}
