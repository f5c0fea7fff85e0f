/** The stored records of internal/models/models.go, without their timestamps. */
module Models {
  import opened Results

  /** A row of admin_users; `passwordHash` is the bcrypt hash of the password. */
  datatype AdminUser = AdminUser(id: int, username: string, passwordHash: string)

  /**
   * A row of api_keys. Only the hash of the raw key is kept. `lastUsed` is the
   * clock reading of the latest successful use, `None` for never.
   */
  datatype ApiKey = ApiKey(id: int, keyHash: string, name: string, enabled: bool, lastUsed: Option<int>)

  /** A row of api_requests: one served random-images request made with a key. */
  datatype ApiRequest = ApiRequest(id: int, apiKeyId: int, imageCount: int)

  /** A row of image_files. */
  datatype ImageFile = ImageFile(id: int, filename: string, size: int, mimeType: string, enabled: bool)
}
