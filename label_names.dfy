/** lib/label-names.ts: the friendly display names of the backend's class names. */
module LabelNames {

  const FriendlyNames: map<string, string> := map[
    "cuantas_veces_tomas_medicamentos" := "¿Cuántas veces tomas medicamentos?",
    "estoy_resfriado" := "Estoy resfriado",
    "hace_cuanto_tiempo" := "¿Hace cuánto tiempo?",
    "mediremos_su_temperatura" := "Le mediremos su temperatura",
    "tengo_alergias" := "Tengo alergias",
    "tengo_dolor_de_cabeza" := "Tengo dolor de cabeza",
    "tengo_fiebre_y_vomitos" := "Tengo fiebre y vómitos",
    "tiene_cirujia_previa" := "¿Tiene alguna cirugía previa?",
    "a_mi_me_duele_la_cabeza" := "A mí me duele la cabeza",
    "tengo_fiebre_y_tos" := "Tengo fiebre y tos",
    "dolor" := "Dolor",
    "yo" := "Yo"
  ]
}
