/**
 * The admin panel's language atom and its label tables. The atom starts in
 * Spanish; the toggle flips between Spanish and Chinese.
 */
module I18nStore {

  /** `AdminLanguage = 'es' | 'zh'`: the language codes, as the strings the atom holds. */
  type AdminLanguage = s: string | s == "es" || s == "zh" witness "es"

  const Languages: set<string> := {"es", "zh"}

  /** `current === 'es' ? 'zh' : 'es'`: whatever the atom held, the result is a language, and never the one held. */
  function Toggled(current: string): (next: AdminLanguage)
    ensures next in Languages && next != current
  {
    if current == "es" then "zh" else "es"
  }

  /** The language after `n` toggles. */
  function ToggledTimes(start: AdminLanguage, n: nat): AdminLanguage {
    if n == 0 then start else Toggled(ToggledTimes(start, n - 1))
  }

  /** Toggling twice gives back the language one started from. */
  lemma ToggleInvolution(l: AdminLanguage)
    ensures Toggled(Toggled(l)) == l
  {
  }

  /** After any number of toggles the language is the start for an even count and the other one for an odd count. */
  lemma {:induction false} ToggleParity(start: AdminLanguage, n: nat)
    ensures ToggledTimes(start, n) == if n % 2 == 0 then start else Toggled(start)
  {
    if n > 0 {
      ToggleParity(start, n - 1);
      ToggleInvolution(start);
    }
  }

  /** The keys every label table defines. */
  const LabelKeys: set<string> := {
    "dashboard", "products", "stock", "price", "save", "edit", "logout",
    "available", "outOfStock", "createProduct", "generateQR"
  }

  /** `adminTranslations[lang]`. */
  function Translations(lang: AdminLanguage): (table: map<string, string>)
    ensures table.Keys == LabelKeys
    ensures forall k :: k in table ==> table[k] != ""
  {
    if lang == "es" then
      map[
        "dashboard" := "Panel de Control",
        "products" := "Productos",
        "stock" := "Stock",
        "price" := "Precio",
        "save" := "Guardar",
        "edit" := "Editar",
        "logout" := "Cerrar Sesión",
        "available" := "Disponible",
        "outOfStock" := "Agotado",
        "createProduct" := "Crear Producto",
        "generateQR" := "Generar QR"
      ]
    else
      map[
        "dashboard" := "控制面板",
        "products" := "产品管理",
        "stock" := "库存",
        "price" := "价格",
        "save" := "保存",
        "edit" := "编辑",
        "logout" := "退出登录",
        "available" := "有货",
        "outOfStock" := "缺货",
        "createProduct" := "新增产品",
        "generateQR" := "生成二维码"
      ]
  }

  /** Both tables define exactly the same keys, so switching language never loses a label. */
  lemma KeyParity()
    ensures Translations("es").Keys == Translations("zh").Keys
  {
  }

  /** The `adminLang` atom. */
  class AdminLangAtom {
    var value: AdminLanguage

    /** `atom<AdminLanguage>('es')`: Spanish by default. */
    constructor ()
      ensures value == "es"
    {
      value := "es";
    }

    /** `toggleAdminLang`: read the atom, then set it to the other language. */
    method Toggle()
      modifies this
      ensures value == Toggled(old(value))
    {
      var current := value;
      value := if current == "es" then "zh" else "es";
    }
  }
}
